/** Placement between the scan and the commit: who can be overtaken, and when. */
module Overtaking {
  import opened Model
  import opened Transactions
  import opened Invariant
  import opened Runs
  import opened Interleaving
  import opened Knowledge
  import opened Refinement
  import opened Worlds
  import opened Placement
  import opened Reaping

  /** The job is queued and no other transaction holds it. */
  ghost predicate Available(w: World, t: nat, a: JobId) {
    a in w.db.jobs && w.db.jobs[a].state == QUEUED && JobLock(a) !in Busy(w.txs, t)
  }

  /** At the scan of transaction t: available, and fitting in what the worker has left. */
  ghost predicate OnOffer(w: World, t: nat, a: JobId)
    requires t in w.txs && w.txs[t].phase.Counted?
  {
    Available(w, t, a) && FitsLeft(w.db.jobs[a], w.txs[t].phase)
  }

  /** The placement of transaction t commits although job `a`, which outranks the one it places, is
      available, and `a` is left queued. */
  ghost predicate Overtakes(w: World, t: nat, d: Draw, a: JobId)
    requires t in w.txs && w.txs[t].phase.Placed?
  {
    var j, turn := w.txs[t].phase.j, TurnIn(w, t, d);
    && Outranks(w.db.jobs, a, j) && Available(w, t, a)
    && turn.Ends? && turn.result.Ok? && turn.result.response.Leased? && turn.result.response.lease.job == j
    && a in turn.db.jobs && turn.db.jobs[a].state == QUEUED
  }

  // ------------------------------------------------------------------ from the scan to the commit

  lemma ScanPools(w: World, t: nat, d: Draw, a: JobId)
    requires t in w.txs && w.txs[t].phase.Counted? && TurnIn(w, t, d).Goes?
    ensures TurnIn(w, t, d).phase.Picked?
    ensures a in TurnIn(w, t, d).phase.pool <==> OnOffer(w, t, a)
  {
    var busy := Busy(w.txs, t);
    assert a in Locked(busy) <==> JobLock(a) in busy;
  }

  predicate Picks(tx: Tx, pool: set<JobId>, j: JobId) {
    (tx.phase.Picked? || tx.phase.Placed?) && tx.phase.pool == pool && tx.phase.j == j
  }

  /** Transaction t, if it is still under way, is placing what it picked. */
  predicate StillPicks(w: World, t: nat, pool: set<JobId>, j: JobId) {
    t in w.txs ==> Picks(w.txs[t], pool, j)
  }

  lemma NextPicks(w: World, m: Micro, t: nat, pool: set<JobId>, j: JobId)
    requires StillPicks(w, t, pool, j) && !(m.Begin? && m.t == t)
    ensures StillPicks(Next(w, m), t, pool, j)
  {
    if m.Run? && m.t == t && t in w.txs { RunPicks(w.db, w.now, Busy(w.txs, t), w.txs[t], m.d, pool, j); }
  }

  lemma RunPicks(db: Db, now: int, busy: set<Lock>, tx: Tx, d: Draw, pool: set<JobId>, j: JobId)
    requires Picks(tx, pool, j)
    ensures var turn := TurnOf(db, now, busy, tx, d);
            turn.Goes? ==> Picks(tx.(phase := turn.phase), pool, j)
  {
  }

  /** No other transaction takes the name of t. */
  predicate Leaves(ms: seq<Micro>, t: nat) {
    forall k :: 0 <= k < |ms| ==> !(ms[k].Begin? && ms[k].t == t)
  }

  lemma {:induction false} AfterPicks(w: World, ms: seq<Micro>, t: nat, pool: set<JobId>, j: JobId)
    requires StillPicks(w, t, pool, j) && Leaves(ms, t)
    ensures StillPicks(After(w, ms), t, pool, j)
    decreases |ms|
  {
    if ms != [] {
      NextPicks(w, ms[0], t, pool, j);
      assert forall k :: 0 <= k < |ms[1..]| ==> ms[1..][k] == ms[k + 1];
      AfterPicks(Next(w, ms[0]), ms[1..], t, pool, j);
    }
  }

  /** A placement that has inserted its attempt commits it. */
  lemma PlacedCommits(w: World, t: nat, d: Draw)
    requires WorldInv(w) && t in w.txs && w.txs[t].phase.Placed? && FreshDraw(w.db, Busy(w.txs, t), d)
    ensures var p, turn := w.txs[t].phase, TurnIn(w, t, d);
            && turn.Ends? && turn.result.Ok? && turn.result.response.Leased? && turn.result.response.lease.job == p.j
            && turn.db.jobs == w.db.jobs[p.j := p.job.(state := LEASED, updatedAt := w.now)]
  {
    var tx := w.txs[t];
    PlacedTurn(w, t, d);
    EndsAtomically(w, t, d);
    if TurnIn(w, t, d).result.Err? { StepKeeps(w.db, TurnIn(w, t, d).command); }
  }

  lemma PlacedTurn(w: World, t: nat, d: Draw)
    requires WorldInv(w) && t in w.txs && w.txs[t].phase.Placed? && FreshDraw(w.db, Busy(w.txs, t), d)
    ensures w.txs[t].intent.Calling? && TurnIn(w, t, d) == TurnGrant(w.db, w.now, w.txs[t].intent, w.txs[t].phase)
  {
    assert Knows(w.db, w.now, w.txs[t]);
  }

  /** A placement overtakes whatever outranks its job and is available when it commits. */
  lemma CommitOvertakes(w: World, t: nat, d: Draw, a: JobId)
    requires WorldInv(w) && t in w.txs && w.txs[t].phase.Placed? && FreshDraw(w.db, Busy(w.txs, t), d)
    requires Outranks(w.db.jobs, a, w.txs[t].phase.j)
    ensures Overtakes(w, t, d, a) <==> Available(w, t, a)
  {
    PlacedCommits(w, t, d);
    BeforeTotal(w.db.jobs, a, w.txs[t].phase.j);
  }

  /** What the transaction picked at its scan is what it holds at the commit. */
  lemma PoolAtCommit(w: World, t: nat, d: Draw, ms: seq<Micro>, v: World, p: Phase)
    requires WorldInv(w) && t in w.txs && w.txs[t].phase.Counted? && TurnIn(w, t, d) == Goes(p)
    requires p.Picked? && Leaves(ms, t) && v == After(Next(w, Run(t, d)), ms) && t in v.txs
    ensures WorldInv(v) && Picks(v.txs[t], p.pool, p.j)
  {
    NextKeeps(w, Run(t, d));
    GoesNext(w, t, d, p);
    InterleavingRefines(Next(w, Run(t, d)), ms);
    AfterPicks(Next(w, Run(t, d)), ms, t, p.pool, p.j);
  }

  lemma GoesNext(w: World, t: nat, d: Draw, p: Phase)
    requires t in w.txs && TurnIn(w, t, d) == Goes(p)
    ensures Next(w, Run(t, d)) == w.(txs := w.txs[t := w.txs[t].(phase := p)])
  {
  }

  /** Between the scan and the commit: a job that outranks the one placed is overtaken exactly when it
      is available at the commit and was not on offer at the scan. */
  lemma OvertakenExactly(w: World, t: nat, d: Draw, ms: seq<Micro>, v: World, e: Draw, a: JobId)
    requires WorldInv(w) && t in w.txs && w.txs[t].phase.Counted? && TurnIn(w, t, d).Goes?
    requires Leaves(ms, t) && v == After(Next(w, Run(t, d)), ms)
    requires t in v.txs && v.txs[t].phase.Placed? && FreshDraw(v.db, Busy(v.txs, t), e)
    requires Outranks(v.db.jobs, a, v.txs[t].phase.j)
    ensures Overtakes(v, t, e, a) <==> Available(v, t, a) && !OnOffer(w, t, a)
  {
    ScanPools(w, t, d, a);
    PoolAtCommit(w, t, d, ms, v, TurnIn(w, t, d).phase);
    NotOffered(w, t, d, v, a);
    CommitOvertakes(v, t, e, a);
  }

  lemma NotOffered(w: World, t: nat, d: Draw, v: World, a: JobId)
    requires t in w.txs && w.txs[t].phase.Counted? && TurnIn(w, t, d).Goes? && TurnIn(w, t, d).phase.Picked?
    requires a in TurnIn(w, t, d).phase.pool <==> OnOffer(w, t, a)
    requires WorldInv(v) && t in v.txs && Picks(v.txs[t], TurnIn(w, t, d).phase.pool, TurnIn(w, t, d).phase.j)
    requires Outranks(v.db.jobs, a, v.txs[t].phase.j)
    ensures !OnOffer(w, t, a)
  {
    OvertakenOnlySinceScan(v, t, a);
  }

  // ------------------------------------------------------------------ a reaper in between

  /** Nobody holds the job or an attempt at it. */
  ghost predicate Unheld(w: World, a: JobId) {
    && (forall u :: u in w.txs ==> JobLock(a) !in Held(w.txs[u]))
    && (forall u, b :: u in w.txs && b in w.db.attempts && w.db.attempts[b].job == a ==> AttemptLock(b) !in Held(w.txs[u]))
  }

  lemma AfterCons(w: World, m: Micro, ms: seq<Micro>)
    ensures After(w, [m] + ms) == After(Next(w, m), ms)
  {
    assert ([m] + ms)[0] == m && ([m] + ms)[1..] == ms;
  }

  /** The tables and transactions of `w` with a reaper r at the given phase. */
  function Reaper(w: World, r: nat, p: Phase): World {
    w.(txs := w.txs[r := Tx(Intent.Reaping, w.now, p)])
  }

  lemma ReaperBusy(w: World, r: nat, p: Phase, a: JobId)
    requires r !in w.txs && Unheld(w, a)
    ensures JobLock(a) !in Busy(Reaper(w, r, p).txs, r)
    ensures forall b :: b in w.db.attempts && w.db.attempts[b].job == a ==> AttemptLock(b) !in Busy(Reaper(w, r, p).txs, r)
  {
  }

  lemma ReaperTurn(w: World, r: nat, p: Phase, q: Phase, d: Draw)
    requires r !in w.txs && TurnIn(Reaper(w, r, p), r, d) == Goes(q)
    ensures Next(Reaper(w, r, p), Run(r, d)) == Reaper(w, r, q)
  {
  }

  lemma ReaperScans(w: World, r: nat, d: Draw, a: JobId)
    requires r !in w.txs && FreshDraw(w.db, Busy(Reaper(w, r, Opening).txs, r), d) && d.todo == [a]
    requires a in w.db.jobs && Reapable(w.db.attempts, a, w.now)
    ensures Next(Reaper(w, r, Opening), Run(r, d)) == Reaper(w, r, Scanned([a], []))
  {
    ReaperTurn(w, r, Opening, Scanned([a], []), d);
  }

  lemma ReaperLocks(w: World, r: nat, d: Draw, a: JobId)
    requires r !in w.txs && Unheld(w, a) && FreshDraw(w.db, Busy(Reaper(w, r, Scanned([a], [])).txs, r), d)
    ensures Next(Reaper(w, r, Scanned([a], [])), Run(r, d)) == Reaper(w, r, Scanned([], [a]))
  {
    ReaperBusy(w, r, Scanned([a], []), a);
    assert [a][1..] == [] && [] + [a] == [a];
    ReaperTurn(w, r, Scanned([a], []), Scanned([], [a]), d);
  }

  lemma ReaperLocked(w: World, r: nat, d: Draw, a: JobId)
    requires r !in w.txs && FreshDraw(w.db, Busy(Reaper(w, r, Scanned([], [a])).txs, r), d)
    ensures Next(Reaper(w, r, Scanned([], [a])), Run(r, d)) == Reaper(w, r, Rechecking([a], []))
  {
    ReaperTurn(w, r, Scanned([], [a]), Rechecking([a], []), d);
  }

  lemma ReaperRechecks(w: World, r: nat, d: Draw, a: JobId) returns (b: AttemptId)
    requires r !in w.txs && Unheld(w, a) && FreshDraw(w.db, Busy(Reaper(w, r, Rechecking([a], [])).txs, r), d)
    requires a in w.db.jobs && Reapable(w.db.attempts, a, w.now)
    ensures ExpiredLive(w.db.attempts, a, w.now, b)
    ensures Next(Reaper(w, r, Rechecking([a], [])), Run(r, d)) == Reaper(w, r, Rechecking([a], [Hit(Slot(a, w.now), Some(b))]))
  {
    var p := Rechecking([a], []);
    ReaperBusy(w, r, p, a);
    b :| b in w.db.attempts && ExpiredLive(w.db.attempts, a, w.now, b)
         && TurnRecheck(w.db, w.now, Busy(Reaper(w, r, p).txs, r), p)
            == if AttemptLock(b) in Busy(Reaper(w, r, p).txs, r) then Waits(AttemptLock(b))
               else Goes(Rechecking([a], [] + [Hit(Slot(a, w.now), Some(b))]));
    assert [] + [Hit(Slot(a, w.now), Some(b))] == [Hit(Slot(a, w.now), Some(b))];
    ReaperTurn(w, r, p, Rechecking([a], [Hit(Slot(a, w.now), Some(b))]), d);
  }

  lemma ReaperCommits(w: World, r: nat, d: Draw, a: JobId, b: AttemptId)
    requires Sound(w.db) && r !in w.txs && a in w.db.jobs && ExpiredLive(w.db.attempts, a, w.now, b)
    requires FreshDraw(w.db, Busy(Reaper(w, r, Rechecking([a], [Hit(Slot(a, w.now), Some(b))])).txs, r), d)
    ensures Next(Reaper(w, r, Rechecking([a], [Hit(Slot(a, w.now), Some(b))])), Run(r, d))
         == World(ExpireJob(w.db, Slot(a, w.now)), w.now, w.txs)
  {
    var h := Hit(Slot(a, w.now), Some(b));
    OneExpiry(w.db, h);
    OneHit(w.db, h);
    assert w.txs[r := Tx(Intent.Reaping, w.now, Rechecking([a], [h]))] - {r} == w.txs;
  }

  lemma OneHit(db: Db, h: Hit)
    requires h.expired.Some? && h.expired.value in db.attempts && db.attempts[h.expired.value].job in db.jobs
    ensures ApplyHits(db, [h]) == ExpireAttempt(db, h.expired.value, h.slot.at)
  {
    assert [h][1..] == [];
  }

  lemma SameBusy(w: World, r: nat, p: Phase, q: Phase)
    ensures Busy(Reaper(w, r, p).txs, r) == Busy(Reaper(w, r, q).txs, r)
  {
    forall l ensures l in Busy(Reaper(w, r, p).txs, r) <==> l in Busy(Reaper(w, r, q).txs, r) {
      if u :| u in w.txs && u != r && l in Held(w.txs[u]) {
        assert l in Held(Reaper(w, r, p).txs[u]) && l in Held(Reaper(w, r, q).txs[u]);
      }
    }
  }

  /** A reaper that starts now and meets nobody requeues or fails a job whose lease has run out. */
  lemma ReaperExpires(w: World, r: nat, a: JobId) returns (ms: seq<Micro>)
    requires Sound(w.db) && r !in w.txs && Unheld(w, a) && a in w.db.jobs && Reapable(w.db.attempts, a, w.now)
    ensures After(w, ms) == World(ExpireJob(w.db, Slot(a, w.now)), w.now, w.txs)
    ensures forall k :: 0 <= k < |ms| ==> (ms[k].Begin? ==> ms[k].t == r)
  {
    var d := FreshDrawExists(w.db, Busy(Reaper(w, r, Opening).txs, r));
    d := d.(todo := [a]);
    ReaperScans(w, r, d, a);
    SameBusy(w, r, Opening, Scanned([a], []));
    ReaperLocks(w, r, d, a);
    SameBusy(w, r, Opening, Scanned([], [a]));
    ReaperLocked(w, r, d, a);
    SameBusy(w, r, Opening, Rechecking([a], []));
    var b := ReaperRechecks(w, r, d, a);
    SameBusy(w, r, Opening, Rechecking([a], [Hit(Slot(a, w.now), Some(b))]));
    ReaperCommits(w, r, d, a, b);
    var run := Run(r, d);
    ms := [Begin(r, Intent.Reaping)] + ([run] + ([run] + ([run] + ([run] + ([run] + [])))));
    FiveRuns(w, r, run, a, Hit(Slot(a, w.now), Some(b)));
    AfterCons(w, Begin(r, Intent.Reaping), [run] + ([run] + ([run] + ([run] + ([run] + [])))));
    BeginNext(w, r);
  }

  lemma BeginNext(w: World, r: nat)
    requires r !in w.txs
    ensures Next(w, Begin(r, Intent.Reaping)) == Reaper(w, r, Opening)
  {
  }

  lemma FiveRuns(w: World, r: nat, run: Micro, a: JobId, h: Hit)
    requires Next(Reaper(w, r, Opening), run) == Reaper(w, r, Scanned([a], []))
    requires Next(Reaper(w, r, Scanned([a], [])), run) == Reaper(w, r, Scanned([], [a]))
    requires Next(Reaper(w, r, Scanned([], [a])), run) == Reaper(w, r, Rechecking([a], []))
    requires Next(Reaper(w, r, Rechecking([a], [])), run) == Reaper(w, r, Rechecking([a], [h]))
    ensures After(Reaper(w, r, Opening), [run] + ([run] + ([run] + ([run] + ([run] + [])))))
         == Next(Reaper(w, r, Rechecking([a], [h])), run)
  {
    var last := Reaper(w, r, Rechecking([a], [h]));
    AfterCons(last, run, []);
    AfterCons(Reaper(w, r, Rechecking([a], [])), run, [run] + []);
    AfterCons(Reaper(w, r, Scanned([], [a])), run, [run] + ([run] + []));
    AfterCons(Reaper(w, r, Scanned([a], [])), run, [run] + ([run] + ([run] + [])));
    AfterCons(Reaper(w, r, Opening), run, [run] + ([run] + ([run] + ([run] + []))));
  }

  // ------------------------------------------------------------------ it does happen

  lemma {:induction false} AfterSnoc(w: World, ms: seq<Micro>, m: Micro)
    ensures After(w, ms + [m]) == Next(After(w, ms), m)
    decreases |ms|
  {
    if ms == [] {
      assert ms + [m] == [m] + [];
      AfterCons(w, m, []);
    } else {
      assert ms + [m] == [ms[0]] + (ms[1..] + [m]);
      AfterCons(w, ms[0], ms[1..] + [m]);
      AfterSnoc(Next(w, ms[0]), ms[1..], m);
    }
  }

  /** Picking another job holds nothing of this one. */
  lemma PickLeavesUnheld(w: World, t: nat, p: Phase, a: JobId)
    requires t in w.txs && w.txs[t].phase.Counted? && w.txs[t].intent.Calling? && p.Picked? && p.j != a && Unheld(w, a)
    ensures Unheld(w.(txs := w.txs[t := w.txs[t].(phase := p)]), a)
  {
    var tx := w.txs[t];
    assert Held(tx.(phase := p)) == Held(tx) + {JobLock(p.j)};
  }

  /** The insertion of the attempt. */
  lemma PickedPlaces(w: World, t: nat, d: Draw)
    requires t in w.txs && w.txs[t].phase.Picked? && w.txs[t].intent.Calling? && FreshDraw(w.db, Busy(w.txs, t), d)
    ensures var v := Next(w, Run(t, d));
            && v == w.(txs := v.txs) && t in v.txs && v.txs[t].phase.Placed? && v.txs[t].phase.j == w.txs[t].phase.j
            && v.txs == w.txs[t := v.txs[t]]
  {
  }

  /** After a requeue the job is available and still outranks what it outranked. */
  lemma Requeued(db: Db, a: JobId, j: JobId, at: int)
    requires Sound(db) && a in db.jobs && Reapable(db.attempts, a, at) && Outranks(db.jobs, a, j) && a != j
    requires Top(db.attempts, a) < db.jobs[a].maxAttempts
    ensures var after := ExpireJob(db, Slot(a, at));
            a in after.jobs && after.jobs[a].state == QUEUED && Outranks(after.jobs, a, j)
  {
    var b := ExpireOne(db, Slot(a, at));
  }

  lemma BusyElsewhere(w: World, v: World, t: nat, a: JobId)
    requires t in w.txs && t in v.txs && v.txs == w.txs[t := v.txs[t]] && forall u :: u in w.txs ==> JobLock(a) !in Held(w.txs[u])
    ensures JobLock(a) !in Busy(v.txs, t)
  {
  }

  /** An older, no larger job that is running on a lapsed lease when a placement scans, and that a
      reaper requeues before the placement commits, is overtaken. */
  lemma OvertakingHappens(w: World, t: nat, d: Draw, r: nat, a: JobId) returns (ms: seq<Micro>, v: World, e: Draw)
    requires WorldInv(w) && t in w.txs && w.txs[t].phase.Counted? && TurnIn(w, t, d).Goes? && TurnIn(w, t, d).phase.Picked?
    requires r !in w.txs && Unheld(w, a) && Outranks(w.db.jobs, a, TurnIn(w, t, d).phase.j)
    requires Reapable(w.db.attempts, a, w.now) && Top(w.db.attempts, a) < w.db.jobs[a].maxAttempts
    ensures Leaves(ms, t) && v == After(Next(w, Run(t, d)), ms)
    ensures t in v.txs && v.txs[t].phase.Placed? && Overtakes(v, t, e, a)
  {
    var p := TurnIn(w, t, d).phase;
    BeforeTotal(w.db.jobs, a, p.j);
    assert Knows(w.db, w.now, w.txs[t]);
    NextKeeps(w, Run(t, d));
    GoesNext(w, t, d, p);
    PickLeavesUnheld(w, t, p, a);
    ms, v, e := RequeuedBetween(Next(w, Run(t, d)), t, r, a);
  }

  lemma RequeuedBetween(w: World, t: nat, r: nat, a: JobId) returns (ms: seq<Micro>, v: World, e: Draw)
    requires WorldInv(w) && t in w.txs && w.txs[t].phase.Picked? && w.txs[t].intent.Calling?
    requires r !in w.txs && Unheld(w, a) && Outranks(w.db.jobs, a, w.txs[t].phase.j) && a != w.txs[t].phase.j
    requires Reapable(w.db.attempts, a, w.now) && Top(w.db.attempts, a) < w.db.jobs[a].maxAttempts
    ensures Leaves(ms, t) && v == After(w, ms)
    ensures t in v.txs && v.txs[t].phase.Placed? && Overtakes(v, t, e, a)
  {
    var reaped := ReaperExpires(w, r, a);
    Requeued(w.db, a, w.txs[t].phase.j, w.now);
    InterleavingRefines(w, reaped);
    var d;
    d, v, e := AvailableIsOvertaken(After(w, reaped), t, a);
    ms := reaped + [Run(t, d)];
    AfterSnoc(w, reaped, Run(t, d));
  }

  lemma AvailableIsOvertaken(w: World, t: nat, a: JobId) returns (d: Draw, v: World, e: Draw)
    requires WorldInv(w) && t in w.txs && w.txs[t].phase.Picked? && w.txs[t].intent.Calling?
    requires Outranks(w.db.jobs, a, w.txs[t].phase.j) && w.db.jobs[a].state == QUEUED
    requires forall u :: u in w.txs ==> JobLock(a) !in Held(w.txs[u])
    ensures v == Next(w, Run(t, d))
    ensures t in v.txs && v.txs[t].phase.Placed? && Overtakes(v, t, e, a)
  {
    d := FreshDrawExists(w.db, Busy(w.txs, t));
    PickedPlaces(w, t, d);
    NextKeeps(w, Run(t, d));
    v := Next(w, Run(t, d));
    BusyElsewhere(w, v, t, a);
    e := FreshDrawExists(v.db, Busy(v.txs, t));
    CommitOvertakes(v, t, e, a);
  }
}
