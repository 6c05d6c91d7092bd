/** The store as an object: tables updated in place, one method per operation, each proved to do
    what its atomic command says. Clock readings, drawn names and rows found locked are parameters. */
module Tables {
  import opened Model
  import opened Collections
  import opened ObjectKeys
  import opened Transactions
  import opened Invariant
  import opened Steps
  import opened Runs
  import opened Reaping
  import opened Submission
  import opened Validation

  /** A method that ran a transaction's body left its tables and gave its answer; if the body
      refuses, the tables do not matter, since the caller rolls back. */
  ghost predicate Fulfils(o: Outcome, after: Db, result: Result) {
    match o
    case Done(db, response) => after == db && result == Ok(response)
    case Refused(e) => result == Err(e)
  }

  class Store {
    const leaseMs: int
    var jobs: map<JobId, Job>
    var attempts: map<AttemptId, Attempt>
    var workers: map<WorkerId, Worker>
    var requests: map<Key, Receipt>
    var artifacts: seq<ArtifactRow>
    var events: seq<Event>

    ghost function View(): Db
      reads this
    {
      Db(leaseMs, jobs, attempts, workers, requests, artifacts, events)
    }

    constructor (leaseMs: int)
      requires 2000 <= leaseMs
      ensures View() == Empty(leaseMs) && Inv(View())
    {
      this.leaseMs := leaseMs;
      jobs, attempts, workers, requests, artifacts, events := map[], map[], map[], map[], [], [];
      new;
      EmptyInv(leaseMs);
    }

    // ---------------------------------------------------------------- queries

    /** SELECT sum(...) over the live attempts of a worker. */
    method Reserved(w: WorkerId) returns (used: Resources)
      ensures used == Usage(View(), w)
    {
      used := NOTHING;
      var rest := attempts.Keys;
      ghost var load := Load(jobs, attempts, w);
      ghost var counted: map<AttemptId, Resources> := map[];
      while rest != {}
        invariant rest <= attempts.Keys && counted.Keys == load.Keys - rest
        invariant forall a :: a in counted ==> counted[a] == load[a]
        invariant used == Total(counted)
        decreases rest
      {
        var a :| a in rest;
        rest := rest - {a};
        var row := attempts[a];
        if row.worker == w && Live(row.state) && row.job in jobs {
          var needs := jobs[row.job].definition.resources;
          TotalAdd(counted, a, needs);
          counted := counted[a := needs];
          used := used.Plus(needs);
        }
      }
      assert counted == load;
    }

    /** What the listing of workers shows as available. */
    method Available(w: WorkerId) returns (free: Resources)
      requires Inv(View()) && w in workers
      ensures free == workers[w].capacity.Minus(Usage(View(), w)) && NOTHING.AtMost(free)
    {
      var used := Reserved(w);
      free := workers[w].capacity.Minus(used);
    }

    /** SELECT coalesce(max(attempt_number), 0) */
    method LastNumber(j: JobId) returns (last: int)
      ensures last == Top(attempts, j)
    {
      last := 0;
      var rest := attempts.Keys;
      var any := false;
      ghost var numbers := Numbers(attempts, j);
      while rest != {}
        invariant rest <= attempts.Keys
        invariant any <==> numbers.Keys - rest != {}
        invariant !any ==> last == 0
        invariant any ==> exists a :: a in numbers.Keys - rest && numbers[a] == last
        invariant forall a :: a in numbers && a !in rest ==> any && numbers[a] <= last
        decreases rest
      {
        var a :| a in rest;
        rest := rest - {a};
        if attempts[a].job == j {
          if !any || last < attempts[a].number { last := attempts[a].number; }
          assert a in numbers.Keys - rest;
          any := true;
        }
      }
      MaxOfBound(numbers);
      if any { assert exists a :: a in numbers && numbers[a] == last; }
      else { assert numbers.Keys - {} == numbers.Keys; assert numbers == map[]; }
    }

    /** SELECT ... WHERE state = 'QUEUED' AND it fits ORDER BY created_at, id LIMIT 1 SKIP LOCKED */
    method Oldest(free: Resources, skipped: set<JobId>) returns (found: Option<JobId>)
      ensures var fitting := Candidates(View(), free, skipped);
              found == if fitting == {} then None else Some(First(jobs, fitting))
    {
      found := None;
      var rest := jobs.Keys;
      ghost var fitting := Candidates(View(), free, skipped);
      while rest != {}
        invariant rest <= jobs.Keys
        invariant found.None? <==> fitting - rest == {}
        invariant found.Some? ==> IsFirst(jobs, fitting - rest, found.value)
        decreases rest
      {
        var j :| j in rest;
        ghost var before := fitting - rest;
        rest := rest - {j};
        if jobs[j].state == QUEUED && j !in skipped && jobs[j].definition.resources.AtMost(free) {
          assert fitting - rest == before + {j};
          if found.None? || Before(jobs, j, found.value) {
            if found.Some? { Precedes(jobs, before, found.value, j); }
            found := Some(j);
          } else {
            BeforeTotal(jobs, j, found.value);
          }
        } else {
          assert fitting - rest == before;
        }
      }
      assert fitting - {} == fitting;
      if found.Some? { OneFirst(jobs, fitting, found.value, First(jobs, fitting)); }
    }

    /** SELECT ... WHERE idempotency_key = key */
    method Owner(key: string) returns (owner: Option<JobId>)
      ensures owner.None? <==> !KeyTaken(jobs, key)
      ensures owner.Some? ==> owner.value in jobs && jobs[owner.value].definition.idempotencyKey == key
    {
      var rest := jobs.Keys;
      while rest != {}
        invariant rest <= jobs.Keys
        invariant forall j :: j in jobs && j !in rest ==> jobs[j].definition.idempotencyKey != key
        decreases rest
      {
        var j :| j in rest;
        if jobs[j].definition.idempotencyKey == key { return Some(j); }
        rest := rest - {j};
      }
      return None;
    }

    /** SELECT ... the live attempt of a job, if its lease has run out. */
    method Expired(j: JobId, at: int) returns (a: Option<AttemptId>)
      ensures a.None? <==> !Reapable(attempts, j, at)
      ensures a.Some? ==> ExpiredLive(attempts, j, at, a.value)
    {
      var rest := attempts.Keys;
      while rest != {}
        invariant rest <= attempts.Keys
        invariant forall b :: b in attempts && b !in rest ==> !ExpiredLive(attempts, j, at, b)
        decreases rest
      {
        var b :| b in rest;
        if ExpiredLive(attempts, j, at, b) { return Some(b); }
        rest := rest - {b};
      }
      return None;
    }

    // ---------------------------------------------------------------- worker calls

    method Enrol(r: Request, at: int) returns (result: Result)
      modifies this
      ensures Fulfils(Register(old(View()), r, at), View(), result)
    {
      if !r.resources.Valid() || r.resources.cpu < 1 || r.resources.memoryMb < 1 { return Err(Invalid); }
      if r.worker !in workers {
        workers := workers[r.worker := Worker(r.session, r.hostname, r.resources, ACTIVE, at)];
      }
      var row := workers[r.worker];
      if row.session != r.session || row.capacity != r.resources { return Err(Conflict); }
      return Ok(Registered);
    }

    /** A row with the same id or number, or another live attempt at the job. */
    method Rejected(a: AttemptId, row: Attempt) returns (rejected: bool)
      ensures rejected <==> UniqueViolation(View(), a, row)
    {
      if a in attempts || LiveOf(attempts, row.job) != {} { return true; }
      var rest := attempts.Keys;
      ghost var numbers := Numbers(attempts, row.job);
      while rest != {}
        invariant rest <= attempts.Keys
        invariant forall b :: b in numbers && b !in rest ==> numbers[b] != row.number
        decreases rest
      {
        var b :| b in rest;
        if attempts[b].job == row.job && attempts[b].number == row.number {
          assert b in numbers && numbers[b] == row.number;
          return true;
        }
        rest := rest - {b};
      }
      return false;
    }

    method Grant(j: JobId, r: Request, met: Circumstances) returns (result: Result)
      requires j in jobs
      modifies this
      ensures Fulfils(GrantLease(old(View()), j, r, met), View(), result)
    {
      var last := LastNumber(j);
      var timeout := Timeout(jobs[j]);
      var row := Attempt(j, last + 1, r.worker, LEASED, met.token, met.t0 + Min(leaseMs, timeout), met.t1 + timeout,
                         None, None, None, "");
      var rejected := Rejected(met.attempt, row);
      if rejected { return Err(Internal); }
      attempts := attempts[met.attempt := row];
      if row.number > jobs[j].maxAttempts { return Err(Internal); }
      jobs := jobs[j := jobs[j].(state := LEASED, updatedAt := met.t3)];
      events := events + [Event(j, Some(met.attempt), Granted, Some(r.requestId))];
      return Ok(Leased(Lease(j, met.attempt, row.number, row.token, row.leaseExpiresAt, met.t2,
                             LastCheckpoint(artifacts, j))));
    }

    /** The circumstances with the reservations as this transaction reads them. */
    ghost function AsRead(r: Request, met: Circumstances): Circumstances
      reads this
    {
      met.(seen := Usage(View(), r.worker))
    }

    method LeaseJob(r: Request, capacity: Resources, met: Circumstances) returns (result: Result)
      modifies this
      ensures Fulfils(LeaseNext(old(View()), r, capacity, old(AsRead(r, met))), View(), result)
    {
      var used := Reserved(r.worker);
      var found := Oldest(capacity.Minus(used), met.skipped);
      if found.None? { return Ok(Idle); }
      result := Grant(found.value, r, met);
    }

    /** The loop over reported artifacts. */
    method StoreArtifacts(j: JobId, a: AttemptId, prefix: string, list: seq<Artifact>) returns (refusal: Option<Error>)
      modifies this`artifacts
      ensures AddArtifacts(old(artifacts), j, a, prefix, list)
              == if refusal.None? then Rows(artifacts) else Bad(refusal.value)
    {
      var i := 0;
      while i < |list|
        invariant 0 <= i <= |list|
        invariant AddArtifacts(old(artifacts), j, a, prefix, list) == AddArtifacts(artifacts, j, a, prefix, list[i..])
      {
        var art := list[i];
        assert list[i..][0] == art && list[i..][1..] == list[i + 1..];
        if !ArtifactAccepted(prefix, art) { return Some(Invalid); }
        var existing := FindArtifact(artifacts, art.key);
        if existing.Some? {
          if existing.value != art { return Some(Conflict); }
        } else {
          artifacts := artifacts + [ArtifactRow(j, a, art)];
        }
        i := i + 1;
      }
      return None;
    }

    method LinesTooLong(lines: seq<string>) returns (tooLong: bool)
      ensures tooLong <==> exists i :: 0 <= i < |lines| && |lines[i]| > 16384
    {
      var i := 0;
      while i < |lines|
        invariant 0 <= i <= |lines| && forall k :: 0 <= k < i ==> |lines[k]| <= 16384
      {
        if |lines[i]| > 16384 { return true; }
        i := i + 1;
      }
      return false;
    }

    method ReportOn(call: Method, a: AttemptId, r: Request, met: Circumstances) returns (result: Result)
      requires a in attempts && attempts[a].job in jobs
      modifies this
      ensures Fulfils(Report(old(View()), call, a, r, met), View(), result)
    {
      var row, job := attempts[a], jobs[attempts[a].job];
      if row.state != RUNNING { return Err(Conflict); }
      if |r.logs| > 100 || |r.artifacts| > 100 || |r.reason| > 8192 { return Err(Invalid); }
      var tooLong := LinesTooLong(r.logs);
      if tooLong { return Err(Invalid); }
      var refusal := StoreArtifacts(row.job, a, ServerPrefix(job.definition.artifactPrefix, row.job.text, r.attempt), r.artifacts);
      if refusal.Some? { return Err(refusal.value); }
      if call == CompleteAttempt && r.exitCode != 0 { return Err(Invalid); }
      if call != ReportProgress {
        var ended, next := SUCCEEDED, SUCCEEDED;
        if call == FailAttempt { ended, next := FAILED, RetryState(row.number, job.maxAttempts); }
        attempts := attempts[a := row.(state := ended, finishedAt := Some(met.t2), exitCode := Some(r.exitCode), failureReason := r.reason)];
        jobs := jobs[row.job := job.(state := next, updatedAt := met.t3)];
      }
      events := events + [Event(row.job, Some(a), Called(call), Some(r.requestId))];
      return Ok(Accepted);
    }

    /** The fence, then the call. */
    method Fenced(call: Method, r: Request, met: Circumstances) returns (result: Result)
      modifies this
      ensures Fulfils(OnAttempt(old(View()), call, r, met), View(), result)
    {
      if !UuidText(r.attempt) || !UuidText(r.token) { return Err(Invalid); }
      var a := NamedAttempt(r.attempt);
      if a !in attempts || attempts[a].job !in jobs { return Err(NotFound); }
      var row, job := attempts[a], jobs[attempts[a].job];
      var valid := row.leaseExpiresAt > met.t0 && row.deadlineAt > met.t1;
      if row.worker != r.worker || row.token.text != r.token || !valid || !Live(job.state) || !Live(row.state) {
        return Err(Conflict);
      }
      if call == Heartbeat {
        var until := Min(row.deadlineAt, met.t2 + leaseMs);
        attempts := attempts[a := row.(leaseExpiresAt := until)];
        return Ok(Renewed(until, met.t3));
      } else if call == StartAttempt {
        if row.state == LEASED {
          attempts := attempts[a := row.(state := RUNNING, startedAt := Some(met.t2))];
          jobs := jobs[row.job := job.(state := RUNNING, updatedAt := met.t3)];
        }
        events := events + [Event(row.job, Some(a), Called(StartAttempt), Some(r.requestId))];
        return Ok(Accepted);
      }
      result := ReportOn(call, a, r, met);
    }

    /** A lease, if the worker still takes work. */
    method DispatchedLease(r: Request, row: Worker, met: Circumstances) returns (result: Result)
      requires r.worker in workers && workers[r.worker] == row
      modifies this
      ensures Fulfils(Dispatch(old(View()), Model.LeaseJob, r, old(AsRead(r, met))), View(), result)
    {
      if row.state != ACTIVE { return Err(Conflict); }
      result := LeaseJob(r, row.capacity, met);
    }

    /** What the worker asked for, once its session has been checked. */
    method Dispatched(call: Method, r: Request, row: Worker, met: Circumstances) returns (result: Result)
      requires call != RegisterWorker && r.worker in workers && workers[r.worker] == row
      modifies this
      ensures Fulfils(Dispatch(old(View()), call, r, old(AsRead(r, met))), View(), result)
    {
      if call == Model.LeaseJob {
        result := DispatchedLease(r, row, met);
      } else {
        result := DispatchedOther(call, r, row, met);
      }
    }

    method DispatchedOther(call: Method, r: Request, row: Worker, met: Circumstances) returns (result: Result)
      requires call != RegisterWorker && call != Model.LeaseJob && r.worker in workers && workers[r.worker] == row
      modifies this
      ensures Fulfils(Dispatch(old(View()), call, r, old(AsRead(r, met))), View(), result)
    {
      if call == ReleaseWorker {
        workers := workers[r.worker := row.(state := DRAINING)];
        result := Ok(Released);
      } else if call == Heartbeat && r.attempt == "" {
        result := Ok(StillAlive);
      } else if call.OtherMethod? {
        result := Err(Invalid);
      } else {
        result := Fenced(call, r, met);
      }
    }

    method Serve(call: Method, r: Request, met: Circumstances) returns (result: Result)
      modifies this
      ensures Fulfils(CallBody(old(View()), call, r, old(AsRead(r, met))), View(), result)
    {
      if call == RegisterWorker { result := Enrol(r, met.touchedAt); return; }
      if r.worker !in workers { return Err(NotFound); }
      var row := workers[r.worker];
      if row.session != r.session { return Err(Conflict); }
      row := row.(lastHeartbeatAt := met.touchedAt);
      workers := workers[r.worker := row];
      assert View() == Touched(old(View()), r.worker, met.touchedAt);
      assert AsRead(r, met) == old(AsRead(r, met));
      result := Dispatched(call, r, row, met);
    }

    // ---------------------------------------------------------------- receipts

    /** Claims the request key. An answer is given at once to a request already answered and to one
        that cannot be; otherwise its row is there, waiting for the response. */
    method Claim(key: Key, payload: Payload) returns (answer: Option<Result>)
      requires Answered(requests)
      modifies this`requests
      ensures answer.Some? ==> requests == old(requests)
                               && forall body :: Mutate(old(View()), key, payload, body) == (old(View()), answer.value)
      ensures answer.None? ==> 1 <= |key.id.text| <= 256 && key !in old(requests)
                               && requests == old(requests)[key := Receipt(payload, None)]
    {
      if |key.id.text| == 0 || |key.id.text| > 256 { return Some(Err(Invalid)); }
      if key in requests {
        if requests[key].payload != payload { return Some(Err(Conflict)); }
        assert requests[key].response.Some?;
        return Some(Ok(requests[key].response.value));
      }
      requests := requests[key := Receipt(payload, None)];
      return None;
    }

    /** One worker call: claim, body, response; or everything as it was. */
    method Rpc(call: Method, r: Request, met: Circumstances) returns (result: Result)
      requires Inv(View()) && Legal(View(), Command.Rpc(call, r, AsRead(r, met)))
      modifies this
      ensures (View(), result) == Apply(old(View()), Command.Rpc(call, r, old(AsRead(r, met))))
    {
      if !NamedSender(r) { return Err(Invalid); }
      var key, payload := RpcKey(call, r), RpcPayload(r);
      var saved := (jobs, attempts, workers, requests, artifacts, events);
      var answer := Claim(key, payload);
      if answer.Some? { return answer.value; }
      ghost var body := CallBody(old(View()), call, r, AsRead(r, met));
      BodyIgnoresReceipts(old(View()), requests, call, r, AsRead(r, met));
      assert View() == old(View()).(requests := requests);
      result := Serve(call, r, met);
      MutateFulfilled(old(View()), key, payload, body, View(), result);
      if result.Err? {
        jobs, attempts, workers, requests, artifacts, events := saved.0, saved.1, saved.2, saved.3, saved.4, saved.5;
        assert View() == old(View());
      } else {
        requests := requests[key := Receipt(payload, Some(result.response))];
      }
    }

    // ---------------------------------------------------------------- cancel and retry

    method Acted(action: Action, j: JobId, id: RequestId, at: int) returns (result: Result)
      modifies this
      ensures Fulfils(ActionBody(old(View()), action, j, id, at), View(), result)
    {
      if j !in jobs { return Err(NotFound); }
      var job := jobs[j];
      if action == Cancel {
        if job.state == SUCCEEDED || job.state == FAILED { return Err(Conflict); }
        if job.state != CANCELLED {
          attempts := CancelLive(attempts, j, at);
          job := job.(state := CANCELLED);
        }
      } else if action == Retry {
        if job.state != FAILED { return Err(Conflict); }
        job := job.(state := QUEUED, maxAttempts := job.maxAttempts + 1);
      } else {
        return Err(Invalid);
      }
      job := job.(updatedAt := at);
      jobs := jobs[j := job];
      events := events + [Event(j, None, EventKind.Acted(action), Some(id))];
      return Ok(JobView(j, job));
    }

    method Act(action: Action, j: JobId, id: RequestId, at: int) returns (result: Result)
      requires Inv(View())
      modifies this
      ensures (View(), result) == Apply(old(View()), Command.Act(action, j, id, at))
    {
      var key, payload := Key(ActionScope(action), id), ActionPayload(j);
      var saved := (jobs, attempts, workers, requests, artifacts, events);
      var answer := Claim(key, payload);
      if answer.Some? { return answer.value; }
      ghost var body := ActionBody(old(View()), action, j, id, at);
      ActionIgnoresReceipts(old(View()), requests, action, j, id, at);
      assert View() == old(View()).(requests := requests);
      result := Acted(action, j, id, at);
      MutateFulfilled(old(View()), key, payload, body, View(), result);
      if result.Err? {
        jobs, attempts, workers, requests, artifacts, events := saved.0, saved.1, saved.2, saved.3, saved.4, saved.5;
        assert View() == old(View());
      } else {
        requests := requests[key := Receipt(payload, Some(result.response))];
      }
    }

    // ---------------------------------------------------------------- submission

    method Malformed(batch: seq<Entry>) returns (malformed: bool)
      ensures malformed <==> BatchInvalid(batch)
    {
      if |batch| < 1 || |batch| > 1000 { return true; }
      var i := 0;
      while i < |batch|
        invariant 0 <= i <= |batch| && forall k :: 0 <= k < i ==> batch[k].definition.Validate()
      {
        var valid := Admits(batch[i].definition);
        if !valid { return true; }
        i := i + 1;
      }
      return false;
    }

    /** One definition: insert unless its key is there, read back, compare, announce. */
    method SubmitOne(e: Entry) returns (owner: Option<JobId>)
      requires DistinctKeys(jobs) && e.id !in jobs
      modifies this`jobs, this`events
      ensures owner.Some? <==> Accepts(old(jobs), e.definition)
      ensures owner.Some? ==> View() == InsertJob(old(View()), e) && KeyTaken(jobs, KeyOf(e))
                              && owner.value == KeyOwner(jobs, KeyOf(e))
    {
      var taken := Owner(KeyOf(e));
      if taken.None? { jobs := jobs[e.id := NewJob(e.definition, e.at)]; }
      Inserted(old(View()), e);
      Submission.Owner(old(View()), e);
      assert jobs == InsertJob(old(View()), e).jobs;
      owner := Owner(KeyOf(e));
      assert SameKey(jobs, owner.value, KeyOwner(jobs, KeyOf(e)));
      if jobs[owner.value].definition != e.definition { return None; }
      if taken.None? { events := events + [Event(e.id, None, Submitted, None)]; }
    }

    /** The loop over a batch, rolled back at the first conflict. */
    method SubmitEach(batch: seq<Entry>) returns (result: Result)
      requires DistinctKeys(jobs) && FreshIds(jobs, batch)
      modifies this
      ensures Fulfils(SubmitAll(old(View()), batch, []), View(), result)
      ensures result.Err? ==> View() == old(View())
    {
      var savedJobs, savedEvents := jobs, events;
      var out := [];
      var i := 0;
      assert batch[0..] == batch;
      while i < |batch|
        invariant 0 <= i <= |batch| && DistinctKeys(jobs) && FreshIds(jobs, batch[i..])
        invariant SubmitAll(old(View()), batch, []) == SubmitAll(View(), batch[i..], out)
        invariant View() == old(View()).(jobs := jobs, events := events)
      {
        NextEntry(View(), batch[i..], out);
        assert batch[i..][0] == batch[i] && batch[i..][1..] == batch[i + 1..];
        var owner := SubmitOne(batch[i]);
        if owner.None? {
          jobs, events := savedJobs, savedEvents;
          return Err(Conflict);
        }
        out := out + [owner.value];
        i := i + 1;
      }
      return Ok(SubmittedAs(out));
    }

    method Submit(batch: seq<Entry>) returns (result: Result)
      requires Inv(View()) && Legal(View(), Command.Submit(batch))
      modifies this
      ensures (View(), result) == Apply(old(View()), Command.Submit(batch))
    {
      var malformed := Malformed(batch);
      if malformed { return Err(Invalid); }
      result := SubmitEach(batch);
    }

    // ---------------------------------------------------------------- expiry

    /** SELECT id ... live jobs whose lease ran out ORDER BY id LIMIT 100 SKIP LOCKED */
    method ScanOverdue(now: int, locked: set<JobId>) returns (ids: seq<JobId>)
      requires Sound(View())
      ensures var open := Overdue(View(), now) - locked;
              && |ids| == Min(100, |open|) && Ascending(ids)
              && (forall k :: 0 <= k < |ids| ==> ids[k] in open)
              && (forall k, j :: 0 <= k < |ids| && j in open && j !in ids ==> Less(ids[k].text, j.text))
    {
      var pool := set j | j in jobs && Live(jobs[j].state) && j !in locked && Reapable(attempts, j, now);
      ghost var open := Overdue(View(), now) - locked;
      OverdueIsLive(View(), now);
      assert pool == open;
      ids := FirstIds(pool, 100);
    }

    /** Expires one job's attempt if, under the job's lock, its lease has run out. */
    method ExpireNow(s: Slot) returns (expired: bool)
      requires Sound(View())
      modifies this
      ensures View() == ExpireJob(old(View()), s)
      ensures expired <==> s.id in old(jobs) && Reapable(old(attempts), s.id, s.at)
    {
      var a := Expired(s.id, s.at);
      if a.None? { return false; }
      LiveIsTop(View(), a.value);
      ghost var b := ExpireOne(View(), s);
      OnlyLive(View(), a.value, b);
      var row := attempts[a.value];
      attempts := attempts[a.value := row.(state := EXPIRED, finishedAt := Some(s.at), failureReason := "lease or attempt deadline expired")];
      jobs := jobs[s.id := jobs[s.id].(state := RetryState(row.number, jobs[s.id].maxAttempts), updatedAt := s.at)];
      events := events + [Event(s.id, Some(a.value), LeaseExpired, None)];
      return true;
    }

    /** The loop over the scanned jobs. */
    method ExpireEach(scan: seq<Slot>) returns (reaped: nat)
      requires Inv(View())
      modifies this
      ensures View() == ReapAll(old(View()), scan) && reaped == ReapCount(old(View()), scan)
    {
      reaped := 0;
      var i := 0;
      assert scan[0..] == scan;
      while i < |scan|
        invariant 0 <= i <= |scan| && Inv(View())
        invariant ReapAll(old(View()), scan) == ReapAll(View(), scan[i..])
        invariant ReapCount(old(View()), scan) == reaped + ReapCount(View(), scan[i..])
      {
        assert scan[i..][0] == scan[i] && scan[i..][1..] == scan[i + 1..];
        ExpireKeeps(View(), scan[i]);
        var expired := ExpireNow(scan[i]);
        if expired { reaped := reaped + 1; }
        i := i + 1;
      }
    }

    /** One sweep: the scan, then the jobs one by one, each rechecked at its own reading of the clock. */
    method Reap(now: int, locked: set<JobId>, readings: seq<int>) returns (result: Result, scan: seq<Slot>)
      requires Inv(View()) && |readings| == 100
      modifies this
      ensures (View(), result) == Apply(old(View()), Command.Reap(scan))
      ensures DistinctSlots(scan) && |scan| == Min(100, |Overdue(old(View()), now) - locked|)
      ensures forall k :: 0 <= k < |scan| ==> scan[k].at == readings[k] && scan[k].id in Overdue(old(View()), now) - locked
      ensures locked == {} && (forall k :: 0 <= k < 100 ==> readings[k] == now) ==> Sweep(old(View()), now, scan)
    {
      var ids := ScanOverdue(now, locked);
      scan := At(ids, readings);
      ScanIs(View(), now, locked, ids, readings);
      var reaped := ExpireEach(scan);
      result := Ok(Reaped(reaped));
    }

    /** The server's tick: k sweeps that meet no lock, with no lease running out between them, clear
        a hundred leases each, so n of them are gone exactly when 100 k reaches n. */
    method SweepTimes(now: int, k: nat)
      requires Inv(View())
      modifies this
      ensures Inv(View())
      ensures |Overdue(View(), now)| == |Overdue(old(View()), now)| - Min(|Overdue(old(View()), now)|, 100 * k)
      ensures Overdue(View(), now) == {} <==> |Overdue(old(View()), now)| <= 100 * k
    {
      var i := 0;
      while i < k
        invariant 0 <= i <= k && Inv(View())
        invariant |Overdue(View(), now)| == |Overdue(old(View()), now)| - Min(|Overdue(old(View()), now)|, 100 * i)
      {
        ghost var before := View();
        var result, scan := Reap(now, {}, seq(100, _ => now));
        SweepShrinks(before, now, scan);
        i := i + 1;
      }
    }

    /** Any command, over tables as they are: the invariant is kept. */
    method Perform(c: Command) returns (result: Result)
      requires Inv(View()) && Legal(View(), c) && (c.Rpc? ==> c.met == AsRead(c.request, c.met))
      modifies this
      ensures (View(), result) == Apply(old(View()), c) && Inv(View())
    {
      StepKeeps(View(), c);
      match c
      case Submit(batch) => result := Submit(batch);
      case Rpc(call, r, met) => result := Rpc(call, r, met);
      case Act(action, j, id, at) => result := Act(action, j, id, at);
      case Reap(scan) =>
        var reaped := ExpireEach(scan);
        result := Ok(Reaped(reaped));
    }
  }

  lemma Precedes(jobs: map<JobId, Job>, s: set<JobId>, first: JobId, j: JobId)
    requires IsFirst(jobs, s, first) && j in jobs && Before(jobs, j, first)
    ensures IsFirst(jobs, s + {j}, j)
  {
    forall i | i in s + {j} && i != j ensures Before(jobs, j, i) {
      if i != first { BeforeTransitive(jobs, j, first, i); }
    }
  }

  lemma OneFirst(jobs: map<JobId, Job>, s: set<JobId>, a: JobId, b: JobId)
    requires IsFirst(jobs, s, a) && IsFirst(jobs, s, b)
    ensures a == b
  {
    if a != b { BeforeTotal(jobs, a, b); }
  }

  /** The same outcome over other receipts. */
  ghost function Over(o: Outcome, rs: map<Key, Receipt>): Outcome {
    if o.Done? then Done(o.db.(requests := rs), o.response) else o
  }

  ghost predicate KeepsReceipts(db: Db, o: Outcome) {
    o.Done? ==> o.db.requests == db.requests
  }

  lemma LeaseIgnoresReceipts(db: Db, rs: map<Key, Receipt>, r: Request, capacity: Resources, met: Circumstances)
    ensures LeaseNext(db.(requests := rs), r, capacity, met) == Over(LeaseNext(db, r, capacity, met), rs)
    ensures KeepsReceipts(db, LeaseNext(db, r, capacity, met))
  {
    var free := capacity.Minus(met.seen);
    assert Candidates(db, free, met.skipped) == Candidates(db.(requests := rs), free, met.skipped);
  }

  lemma StartIgnoresReceipts(db: Db, rs: map<Key, Receipt>, a: AttemptId, r: Request, met: Circumstances)
    requires a in db.attempts && db.attempts[a].job in db.jobs
    ensures Start(db.(requests := rs), a, r, met) == Over(Start(db, a, r, met), rs)
    ensures KeepsReceipts(db, Start(db, a, r, met))
  {
  }

  /** A report whose artifacts have been stored. */
  ghost function Reported(kept: Db, call: Method, a: AttemptId, r: Request, met: Circumstances): Outcome
    requires a in kept.attempts && kept.attempts[a].job in kept.jobs
  {
    if call == CompleteAttempt && r.exitCode != 0 then Refused(Invalid)
    else
      var next := if call == ReportProgress then kept else Finish(kept, call, a, r, met);
      Done(Record(next, kept.attempts[a].job, Some(a), Called(call), Some(r.requestId)), Accepted)
  }

  ghost function Checks(rows: seq<ArtifactRow>, row: Attempt, job: Job, a: AttemptId, r: Request): Checked {
    if row.state != RUNNING then Bad(Conflict)
    else if TooLarge(r) then Bad(Invalid)
    else AddArtifacts(rows, row.job, a, ServerPrefix(job.definition.artifactPrefix, row.job.text, r.attempt), r.artifacts)
  }

  lemma ReportInTwo(db: Db, call: Method, a: AttemptId, r: Request, met: Circumstances)
    requires a in db.attempts && db.attempts[a].job in db.jobs
    ensures var checks := Checks(db.artifacts, db.attempts[a], db.jobs[db.attempts[a].job], a, r);
            Report(db, call, a, r, met)
            == if checks.Bad? then Refused(checks.error) else Reported(db.(artifacts := checks.rows), call, a, r, met)
  {
  }

  lemma ReportedIgnoresReceipts(kept: Db, rs: map<Key, Receipt>, call: Method, a: AttemptId, r: Request, met: Circumstances)
    requires a in kept.attempts && kept.attempts[a].job in kept.jobs
    ensures Reported(kept.(requests := rs), call, a, r, met) == Over(Reported(kept, call, a, r, met), rs)
    ensures KeepsReceipts(kept, Reported(kept, call, a, r, met))
  {
    FinishIgnoresReceipts(kept, rs, call, a, r, met);
  }

  lemma ReportIgnoresReceipts(db: Db, rs: map<Key, Receipt>, call: Method, a: AttemptId, r: Request, met: Circumstances)
    requires a in db.attempts && db.attempts[a].job in db.jobs
    ensures Report(db.(requests := rs), call, a, r, met) == Over(Report(db, call, a, r, met), rs)
    ensures KeepsReceipts(db, Report(db, call, a, r, met))
  {
    ReportInTwo(db, call, a, r, met);
    ReportInTwo(db.(requests := rs), call, a, r, met);
    var checks := Checks(db.artifacts, db.attempts[a], db.jobs[db.attempts[a].job], a, r);
    if checks.Rows? {
      ReportedIgnoresReceipts(db.(artifacts := checks.rows), rs, call, a, r, met);
      assert db.(requests := rs).(artifacts := checks.rows) == db.(artifacts := checks.rows).(requests := rs);
    }
  }

  lemma FinishIgnoresReceipts(db: Db, rs: map<Key, Receipt>, call: Method, a: AttemptId, r: Request, met: Circumstances)
    requires a in db.attempts && db.attempts[a].job in db.jobs
    ensures Finish(db.(requests := rs), call, a, r, met) == Finish(db, call, a, r, met).(requests := rs)
    ensures Finish(db, call, a, r, met).requests == db.requests
  {
  }

  lemma AttemptIgnoresReceipts(db: Db, rs: map<Key, Receipt>, call: Method, r: Request, met: Circumstances)
    ensures OnAttempt(db.(requests := rs), call, r, met) == Over(OnAttempt(db, call, r, met), rs)
    ensures KeepsReceipts(db, OnAttempt(db, call, r, met))
  {
    var a := NamedAttempt(r.attempt);
    if a in db.attempts && db.attempts[a].job in db.jobs && call != Heartbeat {
      if call == StartAttempt { StartIgnoresReceipts(db, rs, a, r, met); }
      else { ReportIgnoresReceipts(db, rs, call, a, r, met); }
    }
  }

  lemma DispatchIgnoresReceipts(db: Db, rs: map<Key, Receipt>, call: Method, r: Request, met: Circumstances)
    requires r.worker in db.workers
    ensures Dispatch(db.(requests := rs), call, r, met) == Over(Dispatch(db, call, r, met), rs)
    ensures KeepsReceipts(db, Dispatch(db, call, r, met))
  {
    if call == Model.LeaseJob {
      LeaseIgnoresReceipts(db, rs, r, db.workers[r.worker].capacity, met);
    } else {
      AttemptIgnoresReceipts(db, rs, call, r, met);
    }
  }

  /** The body of a call does not look at the receipts. */
  lemma BodyIgnoresReceipts(db: Db, rs: map<Key, Receipt>, call: Method, r: Request, met: Circumstances)
    ensures CallBody(db.(requests := rs), call, r, met) == Over(CallBody(db, call, r, met), rs)
    ensures KeepsReceipts(db, CallBody(db, call, r, met))
  {
    if call != RegisterWorker && r.worker in db.workers {
      var touched := Touched(db, r.worker, met.touchedAt);
      assert Touched(db.(requests := rs), r.worker, met.touchedAt) == touched.(requests := rs);
      DispatchIgnoresReceipts(touched, rs, call, r, met);
    }
  }

  /** A body run over the claimed key, then its response recorded or everything rolled back. */
  lemma MutateFulfilled(db: Db, key: Key, payload: Payload, body: Outcome, after: Db, result: Result)
    requires key !in db.requests && 1 <= |key.id.text| <= 256 && KeepsReceipts(db, body)
    requires Fulfils(Over(body, db.requests[key := Receipt(payload, None)]), after, result)
    ensures Mutate(db, key, payload, body)
         == if result.Err? then (db, result)
            else (after.(requests := after.requests[key := Receipt(payload, Some(result.response))]), result)
  {
    if body.Done? {
      var receipt := Receipt(payload, Some(body.response));
      assert db.requests[key := Receipt(payload, None)][key := receipt] == db.requests[key := receipt];
    }
  }

  /** What one entry of a batch comes to. */
  lemma NextEntry(db: Db, rest: seq<Entry>, out: seq<JobId>)
    requires rest != [] && DistinctKeys(db.jobs) && FreshIds(db.jobs, rest)
    ensures var next := InsertJob(db, rest[0]);
            && DistinctKeys(next.jobs) && FreshIds(next.jobs, rest[1..]) && KeyTaken(next.jobs, KeyOf(rest[0]))
            && SubmitAll(db, rest, out)
               == if Accepts(db.jobs, rest[0].definition)
                  then SubmitAll(next, rest[1..], out + [KeyOwner(next.jobs, KeyOf(rest[0]))])
                  else Refused(Conflict)
  {
    Inserted(db, rest[0]);
    Submission.Owner(db, rest[0]);
    FreshRest(db, rest);
  }

  lemma ActionIgnoresReceipts(db: Db, rs: map<Key, Receipt>, action: Action, j: JobId, id: RequestId, at: int)
    ensures ActionBody(db.(requests := rs), action, j, id, at) == Over(ActionBody(db, action, j, id, at), rs)
    ensures KeepsReceipts(db, ActionBody(db, action, j, id, at))
  {
  }

  // ------------------------------------------------------------------ order by id

  predicate Ascending(ids: seq<JobId>) {
    forall i, k :: 0 <= i < k < |ids| ==> Less(ids[i].text, ids[k].text)
  }

  lemma AscendingApart(ids: seq<JobId>)
    requires Ascending(ids)
    ensures forall i, k :: 0 <= i < k < |ids| ==> ids[i] != ids[k]
  {
    forall i, k | 0 <= i < k < |ids| ensures ids[i] != ids[k] {
      LessTotal(ids[i].text, ids[k].text);
    }
  }

  method Least(pool: set<JobId>) returns (least: JobId)
    requires pool != {}
    ensures least in pool && forall j :: j in pool && j != least ==> Less(least.text, j.text)
  {
    least :| least in pool;
    var rest := pool - {least};
    while rest != {}
      invariant rest <= pool && least in pool - rest
      invariant forall j :: j in pool - rest && j != least ==> Less(least.text, j.text)
      decreases rest
    {
      var j :| j in rest;
      rest := rest - {j};
      LessTotal(j.text, least.text);
      if Less(j.text, least.text) {
        forall i | i in pool - rest && i != j ensures Less(j.text, i.text) {
          if i != least { LessTransitive(j.text, least.text, i.text); }
        }
        least := j;
      }
    }
  }

  /** Each id with the reading of its recheck. */
  function At(ids: seq<JobId>, readings: seq<int>): seq<Slot>
    requires |ids| <= |readings|
  {
    seq(|ids|, k requires 0 <= k < |ids| => Slot(ids[k], readings[k]))
  }

  lemma ScanIs(db: Db, now: int, locked: set<JobId>, ids: seq<JobId>, readings: seq<int>)
    requires |readings| == 100 && |ids| == Min(100, |Overdue(db, now) - locked|) && Ascending(ids)
    requires forall k :: 0 <= k < |ids| ==> ids[k] in Overdue(db, now) - locked
    ensures DistinctSlots(At(ids, readings))
    ensures locked == {} && (forall k :: 0 <= k < 100 ==> readings[k] == now) ==> Sweep(db, now, At(ids, readings))
  {
    AscendingApart(ids);
    if locked == {} { assert Overdue(db, now) - locked == Overdue(db, now); }
  }

  /** ORDER BY id LIMIT limit */
  method FirstIds(all: set<JobId>, limit: nat) returns (ids: seq<JobId>)
    ensures |ids| == Min(limit, |all|) && Ascending(ids)
    ensures forall k :: 0 <= k < |ids| ==> ids[k] in all
    ensures forall k, j :: 0 <= k < |ids| && j in all && j !in ids ==> Less(ids[k].text, j.text)
  {
    var pool := all;
    ids := [];
    while |ids| < limit && pool != {}
      invariant pool <= all && |ids| + |pool| == |all| && |ids| <= limit && Ascending(ids)
      invariant forall k :: 0 <= k < |ids| ==> ids[k] in all && ids[k] !in pool
      invariant forall j :: j in all && j !in ids ==> j in pool
      invariant forall k, j :: 0 <= k < |ids| && j in pool ==> Less(ids[k].text, j.text)
      decreases pool
    {
      var next := Least(pool);
      pool := pool - {next};
      ids := ids + [next];
    }
  }

  lemma OverdueIsLive(db: Db, now: int)
    requires Sound(db)
    ensures forall j :: j in Overdue(db, now) ==> Live(db.jobs[j].state)
  {
    forall j | j in Overdue(db, now) ensures Live(db.jobs[j].state) {
      var a :| a in db.attempts && ExpiredLive(db.attempts, j, now, a);
      LiveIsTop(db, a);
    }
  }
}
