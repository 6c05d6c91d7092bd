/** A sweep of the reaper is all its expiries at once, in whatever order it makes them. */
module Reaping {
  import opened Model
  import opened Transactions
  import opened Invariant
  import opened Evolution
  import opened Steps
  import opened Runs
  import opened Causes
  import opened Interleaving
  import opened Knowledge
  import opened Refinement
  import opened Worlds

  predicate DistinctSlots(scan: seq<Slot>) {
    forall k, l :: 0 <= k < l < |scan| ==> scan[k].id != scan[l].id
  }

  function When(scan: seq<Slot>): map<JobId, int> {
    if scan == [] then map[] else When(scan[1..])[scan[0].id := scan[0].at]
  }

  lemma {:induction false} WhenHolds(scan: seq<Slot>)
    requires DistinctSlots(scan)
    ensures forall j, t :: (j in When(scan) && When(scan)[j] == t) <==> Slot(j, t) in scan
  {
    if scan != [] {
      WhenHolds(scan[1..]);
      forall j, t ensures (j in When(scan) && When(scan)[j] == t) <==> Slot(j, t) in scan {
        assert Slot(j, t) in scan <==> Slot(j, t) == scan[0] || Slot(j, t) in scan[1..];
      }
    }
  }

  // ------------------------------------------------------------------ all at once

  predicate Lapses(attempts: map<AttemptId, Attempt>, when: map<JobId, int>, a: AttemptId)
    requires a in attempts
  {
    attempts[a].job in when && ExpiredLive(attempts, attempts[a].job, when[attempts[a].job], a)
  }

  function ExpiredRow(row: Attempt, at: int): Attempt {
    row.(state := EXPIRED, finishedAt := Some(at), failureReason := "lease or attempt deadline expired")
  }

  /** Every attempt that had lapsed by the time its job was rechecked. */
  function LapsedAttempts(attempts: map<AttemptId, Attempt>, when: map<JobId, int>): map<AttemptId, Attempt> {
    map a | a in attempts ::
      if Lapses(attempts, when, a) then ExpiredRow(attempts[a], when[attempts[a].job]) else attempts[a]
  }

  ghost function LapsedJobs(db: Db, when: map<JobId, int>): map<JobId, Job> {
    map j | j in db.jobs ::
      if j in when && Reapable(db.attempts, j, when[j])
      then db.jobs[j].(state := RetryState(Top(db.attempts, j), db.jobs[j].maxAttempts), updatedAt := when[j])
      else db.jobs[j]
  }

  /** The reference: what expiring all the given jobs at once makes of the tables. */
  ghost function ExpireTogether(db: Db, when: map<JobId, int>): Db {
    db.(attempts := LapsedAttempts(db.attempts, when), jobs := LapsedJobs(db, when))
  }

  lemma ExpireOne(db: Db, s: Slot) returns (a: AttemptId)
    requires Sound(db) && s.id in db.jobs && Reapable(db.attempts, s.id, s.at)
    ensures ExpiredLive(db.attempts, s.id, s.at, a)
    ensures ExpireJob(db, s).attempts == db.attempts[a := ExpiredRow(db.attempts[a], s.at)]
    ensures ExpireJob(db, s).jobs == db.jobs[s.id := db.jobs[s.id].(
              state := RetryState(Top(db.attempts, s.id), db.jobs[s.id].maxAttempts), updatedAt := s.at)]
    ensures ExpireJob(db, s).events == db.events + [Event(s.id, Some(a), LeaseExpired, None)]
  {
    a :| a in db.attempts && ExpiredLive(db.attempts, s.id, s.at, a) && ExpireJob(db, s) == ExpireAttempt(db, a, s.at);
    LiveIsTop(db, a);
    assert ExpireAttempt(db, a, s.at).attempts == db.attempts[a := ExpiredRow(db.attempts[a], s.at)];
  }

  lemma TogetherAttempts(db: Db, next: Db, a: AttemptId, s: Slot, rest: map<JobId, int>)
    requires Sound(db) && s.id !in rest && ExpiredLive(db.attempts, s.id, s.at, a)
    requires next.attempts == db.attempts[a := ExpiredRow(db.attempts[a], s.at)]
    ensures LapsedAttempts(next.attempts, rest) == LapsedAttempts(db.attempts, rest[s.id := s.at])
  {
    forall b | b in db.attempts
      ensures LapsedAttempts(next.attempts, rest)[b] == LapsedAttempts(db.attempts, rest[s.id := s.at])[b]
    {
      if Lapses(db.attempts, rest[s.id := s.at], b) && db.attempts[b].job == s.id {
        OnlyLive(db, a, b);
      }
    }
  }

  lemma SameElsewhere(db: Db, next: Db, a: AttemptId, row: Attempt, j: JobId, at: int)
    requires a in db.attempts && row.job == db.attempts[a].job && row.job != j
    requires next.attempts == db.attempts[a := row]
    ensures Reapable(next.attempts, j, at) == Reapable(db.attempts, j, at)
    ensures Top(next.attempts, j) == Top(db.attempts, j)
  {
    assert JobAttempts(next.attempts, j) == JobAttempts(db.attempts, j);
    SameReapable(db, next, j, at);
    SameTop(db, next, j);
  }

  lemma TogetherJobs(db: Db, next: Db, a: AttemptId, s: Slot, rest: map<JobId, int>)
    requires s.id in db.jobs && s.id !in rest && ExpiredLive(db.attempts, s.id, s.at, a)
    requires next.attempts == db.attempts[a := ExpiredRow(db.attempts[a], s.at)]
    requires next.jobs == db.jobs[s.id := db.jobs[s.id].(
                            state := RetryState(Top(db.attempts, s.id), db.jobs[s.id].maxAttempts), updatedAt := s.at)]
    ensures LapsedJobs(next, rest) == LapsedJobs(db, rest[s.id := s.at])
  {
    assert Reapable(db.attempts, s.id, s.at);
    forall j | j in db.jobs ensures LapsedJobs(next, rest)[j] == LapsedJobs(db, rest[s.id := s.at])[j] {
      if j in rest { SameElsewhere(db, next, a, ExpiredRow(db.attempts[a], s.at), j, rest[j]); }
    }
  }

  lemma TogetherOne(db: Db, s: Slot, rest: map<JobId, int>)
    requires Sound(db) && s.id !in rest
    ensures ExpireTogether(ExpireJob(db, s), rest).attempts == ExpireTogether(db, rest[s.id := s.at]).attempts
    ensures ExpireTogether(ExpireJob(db, s), rest).jobs == ExpireTogether(db, rest[s.id := s.at]).jobs
  {
    if s.id in db.jobs && Reapable(db.attempts, s.id, s.at) {
      var a := ExpireOne(db, s);
      var next := ExpireJob(db, s);
      TogetherAttempts(db, next, a, s, rest);
      TogetherJobs(db, next, a, s, rest);
    } else {
      forall b | b in db.attempts ensures !(db.attempts[b].job == s.id && Lapses(db.attempts, rest[s.id := s.at], b)) {
        assert AttemptOk(db.jobs, db.attempts, db.workers, b);
      }
      assert LapsedAttempts(db.attempts, rest) == LapsedAttempts(db.attempts, rest[s.id := s.at]);
      assert LapsedJobs(db, rest) == LapsedJobs(db, rest[s.id := s.at]);
    }
  }

  lemma {:induction false} WhenKeys(scan: seq<Slot>, j: JobId)
    requires j in When(scan)
    ensures exists k :: 0 <= k < |scan| && scan[k].id == j
  {
    if scan[0].id != j {
      WhenKeys(scan[1..], j);
      var k :| 0 <= k < |scan[1..]| && scan[1..][k].id == j;
      assert scan[k + 1].id == j;
    }
  }

  lemma ExpireKeeps(db: Db, s: Slot)
    requires Inv(db)
    ensures Inv(ExpireJob(db, s))
  {
    var m := ExpireMove(db, Reap([s]), s);
    MovedKeeps(db, Reap([s]), ExpireJob(db, s), m);
  }

  /** A sweep equals the simultaneous expiry of its jobs. */
  lemma {:induction false} ReapIsTogether(db: Db, scan: seq<Slot>)
    requires Inv(db) && DistinctSlots(scan)
    ensures ReapAll(db, scan).attempts == ExpireTogether(db, When(scan)).attempts
    ensures ReapAll(db, scan).jobs == ExpireTogether(db, When(scan)).jobs
    decreases |scan|
  {
    if scan == [] {
      assert LapsedAttempts(db.attempts, map[]) == db.attempts;
      assert LapsedJobs(db, map[]) == db.jobs;
    } else {
      ExpireKeeps(db, scan[0]);
      if scan[0].id in When(scan[1..]) {
        WhenKeys(scan[1..], scan[0].id);
        assert false;
      }
      ReapIsTogether(ExpireJob(db, scan[0]), scan[1..]);
      TogetherOne(db, scan[0], When(scan[1..]));
    }
  }

  // ------------------------------------------------------------------ any order

  /** The expiry events of a sweep, each read off the tables the sweep started from. */
  ghost function ExpiryEvents(db: Db, scan: seq<Slot>): seq<Event> {
    if scan == [] then [] else ExpiryEvent(db, scan[0]) + ExpiryEvents(db, scan[1..])
  }

  ghost function ExpiryEvent(db: Db, s: Slot): seq<Event> {
    if s.id in db.jobs && Reapable(db.attempts, s.id, s.at) then
      var a :| a in db.attempts && ExpiredLive(db.attempts, s.id, s.at, a);
      [Event(s.id, Some(a), LeaseExpired, None)]
    else []
  }

  lemma SameEvent(db: Db, next: Db, s: Slot)
    requires Sound(db) && JobAttempts(next.attempts, s.id) == JobAttempts(db.attempts, s.id)
    requires s.id in next.jobs <==> s.id in db.jobs
    ensures ExpiryEvent(next, s) == ExpiryEvent(db, s)
  {
    SameReapable(db, next, s.id, s.at);
    if s.id in db.jobs && Reapable(db.attempts, s.id, s.at) {
      var a :| a in db.attempts && ExpiredLive(db.attempts, s.id, s.at, a)
               && ExpiryEvent(db, s) == [Event(s.id, Some(a), LeaseExpired, None)];
      var b :| b in next.attempts && ExpiredLive(next.attempts, s.id, s.at, b)
               && ExpiryEvent(next, s) == [Event(s.id, Some(b), LeaseExpired, None)];
      assert ExpiredLive(db.attempts, s.id, s.at, b);
      OnlyLive(db, a, b);
    }
  }

  lemma {:induction false} SameEvents(db: Db, s: Slot, scan: seq<Slot>)
    requires Sound(db) && forall k :: 0 <= k < |scan| ==> scan[k].id != s.id
    ensures ExpiryEvents(ExpireJob(db, s), scan) == ExpiryEvents(db, scan)
    decreases |scan|
  {
    if scan != [] {
      if s.id in db.jobs && Reapable(db.attempts, s.id, s.at) {
        var a := ExpireOne(db, s);
        assert JobAttempts(ExpireJob(db, s).attempts, scan[0].id) == JobAttempts(db.attempts, scan[0].id);
        SameEvent(db, ExpireJob(db, s), scan[0]);
      }
      SameEvents(db, s, scan[1..]);
    }
  }

  lemma FirstEvent(db: Db, s: Slot)
    requires Sound(db)
    ensures ExpireJob(db, s).events == db.events + ExpiryEvent(db, s)
  {
    if s.id in db.jobs && Reapable(db.attempts, s.id, s.at) {
      var a := ExpireOne(db, s);
      var b :| b in db.attempts && ExpiredLive(db.attempts, s.id, s.at, b)
               && ExpiryEvent(db, s) == [Event(s.id, Some(b), LeaseExpired, None)];
      OnlyLive(db, a, b);
    }
  }

  lemma Regroup(a: seq<Event>, b: seq<Event>, c: seq<Event>)
    ensures a + b + c == a + (b + c)
  {
  }

  lemma {:induction false} ReapEvents(db: Db, scan: seq<Slot>)
    requires Inv(db) && DistinctSlots(scan)
    ensures ReapAll(db, scan).events == db.events + ExpiryEvents(db, scan)
    decreases |scan|
  {
    if scan != [] {
      ExpireKeeps(db, scan[0]);
      FirstEvent(db, scan[0]);
      ReapEvents(ExpireJob(db, scan[0]), scan[1..]);
      SameEvents(db, scan[0], scan[1..]);
      Regroup(db.events, ExpiryEvent(db, scan[0]), ExpiryEvents(db, scan[1..]));
    }
  }

  lemma {:induction false} EventsConcat(db: Db, u: seq<Slot>, v: seq<Slot>)
    ensures ExpiryEvents(db, u + v) == ExpiryEvents(db, u) + ExpiryEvents(db, v)
    decreases |u|
  {
    if u == [] {
      assert u + v == v;
    } else {
      assert (u + v)[1..] == u[1..] + v;
      EventsConcat(db, u[1..], v);
    }
  }

  lemma WithoutOne<T>(u: seq<T>, v: seq<T>, k: nat)
    requires u != [] && k < |v| && v[k] == u[0] && multiset(u) == multiset(v)
    ensures multiset(u[1..]) == multiset(v[..k] + v[k + 1..])
  {
    assert u == [u[0]] + u[1..];
    assert v == v[..k] + [v[k]] + v[k + 1..];
    calc {
      multiset(u[1..]);
      multiset(u) - multiset{u[0]};
      multiset(v[..k] + [v[k]] + v[k + 1..]) - multiset{u[0]};
      multiset(v[..k] + v[k + 1..]);
    }
  }

  lemma EventsWithoutOne(db: Db, v: seq<Slot>, k: nat)
    requires k < |v|
    ensures multiset(ExpiryEvents(db, v))
         == multiset(ExpiryEvent(db, v[k])) + multiset(ExpiryEvents(db, v[..k] + v[k + 1..]))
  {
    EventsConcat(db, v[..k], v[k + 1..]);
    EventsConcat(db, v[..k], v[k..]);
    assert v == v[..k] + v[k..];
    assert v[k..][1..] == v[k + 1..];
  }

  lemma {:induction false} EventsPermute(db: Db, u: seq<Slot>, v: seq<Slot>)
    requires multiset(u) == multiset(v)
    ensures multiset(ExpiryEvents(db, u)) == multiset(ExpiryEvents(db, v))
    decreases |u|
  {
    if u == [] {
      assert |v| == |multiset(v)| == 0;
    } else {
      assert u[0] in multiset(v);
      var k :| 0 <= k < |v| && v[k] == u[0];
      WithoutOne(u, v, k);
      EventsPermute(db, u[1..], v[..k] + v[k + 1..]);
      EventsWithoutOne(db, v, k);
    }
  }

  lemma PermutedDistinct(u: seq<Slot>, v: seq<Slot>)
    requires DistinctSlots(u) && DistinctSlots(v) && multiset(u) == multiset(v)
    ensures When(u) == When(v)
  {
    WhenHolds(u);
    WhenHolds(v);
    forall s: Slot ensures s in u <==> s in v {
      assert s in u <==> s in multiset(u);
      assert s in v <==> s in multiset(v);
    }
    forall j ensures j in When(u) <==> j in When(v) {
      if j in When(u) { assert Slot(j, When(u)[j]) in v; }
      if j in When(v) { assert Slot(j, When(v)[j]) in u; }
    }
    forall j | j in When(u) ensures When(u)[j] == When(v)[j] {
      assert Slot(j, When(u)[j]) in v;
    }
  }

  // ------------------------------------------------------------------ how much a sweep clears

  /** The jobs whose live lease has run out. */
  function Overdue(db: Db, now: int): set<JobId> {
    set j | j in db.jobs && Reapable(db.attempts, j, now)
  }

  function Ids(scan: seq<Slot>): set<JobId> {
    set s | s in scan :: s.id
  }

  predicate Within(overdue: set<JobId>, now: int, scan: seq<Slot>) {
    forall s :: s in scan ==> s.at == now && s.id in overdue
  }

  /** One reaper call that meets no lock, with nothing lapsing meanwhile: the scan returns as many of
      the overdue jobs as its limit allows. */
  ghost predicate Sweep(db: Db, now: int, scan: seq<Slot>) {
    && DistinctSlots(scan)
    && Within(Overdue(db, now), now, scan)
    && |scan| == Min(100, |Overdue(db, now)|)
  }

  lemma ExpireShrinks(db: Db, s: Slot)
    requires Sound(db) && s.id in Overdue(db, s.at)
    ensures Overdue(ExpireJob(db, s), s.at) == Overdue(db, s.at) - {s.id}
  {
    var a := ExpireOne(db, s);
    var next := ExpireJob(db, s);
    forall j ensures j in Overdue(next, s.at) <==> j in Overdue(db, s.at) && j != s.id {
      if j != s.id {
        SameElsewhere(db, next, a, ExpiredRow(db.attempts[a], s.at), j, s.at);
      } else if Reapable(next.attempts, j, s.at) {
        var b :| b in next.attempts && ExpiredLive(next.attempts, j, s.at, b);
        OnlyLive(db, a, b);
      }
    }
  }

  lemma {:induction false} ReapShrinks(db: Db, now: int, scan: seq<Slot>)
    requires Inv(db) && DistinctSlots(scan) && Within(Overdue(db, now), now, scan)
    ensures Overdue(ReapAll(db, scan), now) == Overdue(db, now) - Ids(scan)
    ensures ReapCount(db, scan) == |scan|
    decreases |scan|
  {
    if scan == [] {
      assert Ids(scan) == {};
    } else {
      RestWithin(Overdue(db, now), now, scan);
      ExpireShrinks(db, scan[0]);
      ExpireKeeps(db, scan[0]);
      ReapShrinks(ExpireJob(db, scan[0]), now, scan[1..]);
    }
  }

  lemma {:induction false} ManySwept(overdue: set<JobId>, now: int, scan: seq<Slot>)
    requires DistinctSlots(scan) && Within(overdue, now, scan)
    ensures |overdue - Ids(scan)| == |overdue| - |scan|
    decreases |scan|
  {
    if scan == [] {
      assert overdue - Ids(scan) == overdue;
    } else {
      RestWithin(overdue, now, scan);
      ManySwept(overdue - {scan[0].id}, now, scan[1..]);
    }
  }

  lemma RestWithin(overdue: set<JobId>, now: int, scan: seq<Slot>)
    requires scan != [] && DistinctSlots(scan) && Within(overdue, now, scan)
    ensures Within(overdue - {scan[0].id}, now, scan[1..])
    ensures scan[0].id in overdue && scan[0].at == now
    ensures overdue - {scan[0].id} - Ids(scan[1..]) == overdue - Ids(scan)
  {
    assert scan[0] in scan;
    assert scan == [scan[0]] + scan[1..];
    assert Ids(scan) == {scan[0].id} + Ids(scan[1..]);
    forall s | s in scan[1..] ensures s.at == now && s.id in overdue - {scan[0].id} {
      var k :| 0 <= k < |scan[1..]| && scan[1..][k] == s;
      assert scan[0].id != scan[k + 1].id && scan[k + 1] in scan;
    }
  }

  lemma SweepShrinks(db: Db, now: int, scan: seq<Slot>)
    requires Inv(db) && Sweep(db, now, scan)
    ensures Inv(ReapAll(db, scan)) && Apply(db, Reap(scan)).0 == ReapAll(db, scan)
    ensures |Overdue(ReapAll(db, scan), now)| == |Overdue(db, now)| - Min(100, |Overdue(db, now)|)
  {
    ReapShrinks(db, now, scan);
    ManySwept(Overdue(db, now), now, scan);
    ReapKeeps(db, Reap(scan), scan);
  }

  ghost function AfterSweeps(db: Db, scans: seq<seq<Slot>>): Db
    decreases |scans|
  {
    if scans == [] then db else AfterSweeps(ReapAll(db, scans[0]), scans[1..])
  }

  ghost predicate AllSweeps(db: Db, now: int, scans: seq<seq<Slot>>)
    decreases |scans|
  {
    scans == [] || (Sweep(db, now, scans[0]) && AllSweeps(ReapAll(db, scans[0]), now, scans[1..]))
  }

  /** Undisturbed sweeps clear a hundred overdue leases each until none is left: n of them are gone
      after k calls exactly when 100 k reaches n. */
  lemma {:induction false} SweepsClear(db: Db, now: int, scans: seq<seq<Slot>>)
    requires Inv(db) && AllSweeps(db, now, scans)
    ensures |Overdue(AfterSweeps(db, scans), now)| == |Overdue(db, now)| - Min(|Overdue(db, now)|, 100 * |scans|)
    ensures Overdue(AfterSweeps(db, scans), now) == {} <==> |Overdue(db, now)| <= 100 * |scans|
    decreases |scans|
  {
    if scans != [] {
      SweepShrinks(db, now, scans[0]);
      SweepsClear(ReapAll(db, scans[0]), now, scans[1..]);
    }
  }

  // ------------------------------------------------------------------ what a sweep counts

  /** The attempts that `after` shows as expired and `db` does not. */
  function Newly(db: Db, after: Db): set<AttemptId> {
    set a | a in db.attempts && db.attempts[a].state != EXPIRED && a in after.attempts && after.attempts[a].state == EXPIRED
  }

  lemma {:induction false} ReapCounts(db: Db, scan: seq<Slot>)
    requires Inv(db)
    ensures ReapCount(db, scan) == |Newly(db, ReapAll(db, scan))|
    decreases |scan|
  {
    if scan == [] {
      assert Newly(db, db) == {};
    } else {
      var s := scan[0];
      var next := ExpireJob(db, s);
      ExpireKeeps(db, s);
      ReapCounts(next, scan[1..]);
      ReapKeeps(next, Reap(scan[1..]), scan[1..]);
      if s.id in db.jobs && Reapable(db.attempts, s.id, s.at) {
        var a := ExpireOne(db, s);
        NewlyOneMore(db, next, ReapAll(next, scan[1..]), a, s.at);
      }
    }
  }

  lemma NewlyOneMore(db: Db, next: Db, after: Db, a: AttemptId, at: int)
    requires a in db.attempts && Live(db.attempts[a].state)
    requires next.attempts == db.attempts[a := ExpiredRow(db.attempts[a], at)]
    requires AttemptsEvolve(next.attempts, after.attempts)
    ensures |Newly(db, after)| == 1 + |Newly(next, after)|
  {
    assert Newly(db, after) == Newly(next, after) + {a};
  }

  /** In whatever order the reaper gets to the jobs it scanned, it leaves the same tables and,
      up to order, the same events, and counts the same number of expiries. */
  lemma ReapInAnyOrder(db: Db, u: seq<Slot>, v: seq<Slot>)
    requires Inv(db) && DistinctSlots(u) && DistinctSlots(v) && multiset(u) == multiset(v)
    ensures ReapAll(db, u).jobs == ReapAll(db, v).jobs
    ensures ReapAll(db, u).attempts == ReapAll(db, v).attempts
    ensures multiset(ReapAll(db, u).events) == multiset(ReapAll(db, v).events)
    ensures ReapCount(db, u) == ReapCount(db, v)
  {
    ReapIsTogether(db, u);
    ReapIsTogether(db, v);
    PermutedDistinct(u, v);
    ReapEvents(db, u);
    ReapEvents(db, v);
    EventsPermute(db, u, v);
    ReapCounts(db, u);
    ReapCounts(db, v);
    assert Newly(db, ReapAll(db, u)) == Newly(db, ReapAll(db, v));
  }

  /** At statement granularity: a lease renewed before the reaper holds the job's lock is not expired. */
  lemma ReaperHonoursRenewals(w: World, t: nat, d: Draw, a: AttemptId)
    requires WorldInv(w) && t in w.txs && w.txs[t].intent.Reaping? && TurnIn(w, t, d).Ends?
    requires a in w.db.attempts && a in TurnIn(w, t, d).db.attempts
    requires w.db.attempts[a].state != EXPIRED && TurnIn(w, t, d).db.attempts[a].state == EXPIRED
    ensures Live(w.db.attempts[a].state) && w.db.attempts[a].leaseExpiresAt <= w.now
  {
    EndsAtomically(w, t, d);
    var turn := TurnIn(w, t, d);
    if !Raced(w.db, w.txs[t], turn.db, turn.result) {
      StepAccounts(w.db, turn.command, a);
    }
  }
}
