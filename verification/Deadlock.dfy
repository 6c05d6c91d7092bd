/** No reachable interleaving deadlocks: locks are waited for in one order only. */
module Deadlock {
  import opened Model
  import opened Collections
  import opened Transactions
  import opened Runs
  import opened Interleaving
  import opened Knowledge
  import opened Worlds

  /** Transaction t is held up by a lock of transaction u. */
  ghost predicate WaitsFor(w: World, t: nat, u: nat, d: Draw) {
    t in w.txs && u in w.txs && t != u && TurnIn(w, t, d).Waits? && TurnIn(w, t, d).lock in Held(w.txs[u])
  }

  // ------------------------------------------------------------------ attempt rows are never contended

  lemma HitUnderJob(w: World, u: nat, a: AttemptId)
    requires WorldInv(w) && u in w.txs && AttemptLock(a) in Held(w.txs[u]) && w.txs[u].phase.Rechecking?
    ensures a in w.db.attempts ==> JobLock(w.db.attempts[a].job) in Held(w.txs[u])
  {
    var tx := w.txs[u];
    assert KnowsScan(w.db, w.now, tx);
    var h :| h in tx.phase.hits && h.expired.Some? && AttemptLock(h.expired.value) == AttemptLock(a);
    var k :| 0 <= k < |tx.phase.hits| && tx.phase.hits[k] == h;
    assert KnowsHit(w.db, tx.begun, w.now, tx.phase.hits[k]);
    assert tx.phase.locked[k] in tx.phase.locked;
  }

  lemma HeldAttempt(db: Db, now: int, tx: Tx, a: AttemptId)
    requires Knows(db, now, tx) && AttemptLock(a) in Held(tx) && !tx.phase.Rechecking? && a in db.attempts
    ensures JobLock(db.attempts[a].job) in Held(tx)
  {
    assert HasAttempt(tx.phase) && a == tx.phase.a;
    assert tx.phase.Placed? ==> KnowsPlace(db, now, tx);
  }

  /** Whoever holds the lock of a committed attempt holds the lock of its job. */
  lemma AttemptUnderJob(w: World, u: nat, a: AttemptId)
    requires WorldInv(w) && u in w.txs && AttemptLock(a) in Held(w.txs[u]) && a in w.db.attempts
    ensures JobLock(w.db.attempts[a].job) in Held(w.txs[u])
  {
    var tx := w.txs[u];
    if tx.phase.Rechecking? {
      HitUnderJob(w, u, a);
    } else {
      HeldAttempt(w.db, w.now, tx, a);
    }
  }

  lemma HeldByOther(w: World, t: nat, l: Lock) returns (u: nat)
    requires WorldInv(w) && t in w.txs && l in Busy(w.txs, t)
    ensures u in w.txs && u != t && l in Held(w.txs[u])
  {
    u :| u in w.txs && u != t && l in Held(w.txs[u]);
  }

  /** A transaction that holds the job of an attempt finds the attempt's row free. */
  lemma AttemptFree(w: World, t: nat, a: AttemptId)
    requires WorldInv(w) && t in w.txs && a in w.db.attempts
    requires JobLock(w.db.attempts[a].job) in Held(w.txs[t])
    ensures AttemptLock(a) !in Busy(w.txs, t)
  {
    if AttemptLock(a) in Busy(w.txs, t) {
      var u := HeldByOther(w, t, AttemptLock(a));
      AttemptUnderJob(w, u, a);
    }
  }

  lemma RecheckFree(w: World, t: nat)
    requires WorldInv(w) && t in w.txs && w.txs[t].phase.Rechecking?
    ensures !TurnRecheck(w.db, w.now, Busy(w.txs, t), w.txs[t].phase).Waits?
  {
    var p := w.txs[t].phase;
    if |p.hits| < |p.locked| {
      var j := p.locked[|p.hits|];
      assert j in p.locked;
      forall a | a in w.db.attempts && w.db.attempts[a].job == j ensures AttemptLock(a) !in Busy(w.txs, t) {
        AttemptFree(w, t, a);
      }
    }
  }

  lemma ActFree(w: World, t: nat)
    requires WorldInv(w) && t in w.txs && w.txs[t].phase.ActingOn?
    ensures !TurnAct(w.db, w.now, Busy(w.txs, t), w.txs[t].intent, w.txs[t].phase).Waits?
  {
    var tx := w.txs[t];
    assert Knows(w.db, w.now, tx);
    forall a | a in LiveOf(w.db.attempts, tx.intent.job) ensures AttemptLock(a) !in Busy(w.txs, t) {
      AttemptFree(w, t, a);
    }
  }

  lemma FenceFree(w: World, t: nat, d: Draw)
    requires WorldInv(w) && t in w.txs && w.txs[t].phase.AtJob?
    ensures !TurnFence(w.db, w.now, Busy(w.txs, t), w.txs[t].intent, w.txs[t].phase, d).Waits?
  {
    var tx := w.txs[t];
    assert Knows(w.db, w.now, tx);
    AttemptFree(w, t, tx.phase.a);
  }

  // ------------------------------------------------------------------ what may be waited for, holding what

  /** Locks are waited for in the order request, worker, job; submission keys in their own order. */
  predicate InOrder(held: Lock, wanted: Lock) {
    match wanted
    case RequestLock(_) => false
    case WorkerLock(_) => held.RequestLock?
    case JobLock(_) => held.RequestLock? || held.WorkerLock?
    case AttemptLock(_) => false
    case KeyLock(k) => held.KeyLock? && !Less(k, held.text)
  }

  predicate Sorted(keys: seq<string>) {
    forall a, b :: 0 <= a < b < |keys| ==> !Less(keys[b], keys[a])
  }

  lemma SortedCons(k: string, rest: seq<string>)
    requires Sorted(rest) && forall x :: x in rest ==> !Less(x, k)
    ensures Sorted([k] + rest)
  {
    var out := [k] + rest;
    forall a, b | 0 <= a < b < |out| ensures !Less(out[b], out[a]) {
      assert out[b] == rest[b - 1] && rest[b - 1] in rest;
      if a > 0 { assert out[a] == rest[a - 1]; }
    }
  }

  lemma {:induction false} InsertSorted(keys: seq<string>, k: string)
    requires Sorted(keys)
    ensures Sorted(InsertKey(keys, k))
    ensures forall x :: x in InsertKey(keys, k) ==> x == k || x in keys
  {
    if keys != [] && Less(k, keys[0]) {
      forall x | x in keys ensures !Less(x, k) {
        var b :| 0 <= b < |keys| && keys[b] == x;
        LessTotal(keys[0], keys[0]);
        if Less(x, k) { LessTransitive(x, k, keys[0]); }
      }
      SortedCons(k, keys);
    } else if keys != [] {
      var rest := InsertKey(keys[1..], k);
      assert forall a :: 0 <= a < |keys[1..]| ==> keys[1..][a] == keys[a + 1];
      InsertSorted(keys[1..], k);
      forall x | x in rest ensures !Less(x, keys[0]) && (x == k || x in keys) {
        if x != k {
          assert x in keys[1..];
          var c :| 0 <= c < |keys[1..]| && keys[1..][c] == x;
        }
      }
      SortedCons(keys[0], rest);
    } else {
      SortedCons(k, keys);
    }
  }

  lemma {:induction false} KeysSorted(batch: seq<Definition>)
    ensures Sorted(SortedKeys(batch))
  {
    if batch != [] {
      KeysSorted(batch[..|batch| - 1]);
      InsertSorted(SortedKeys(batch[..|batch| - 1]), batch[|batch| - 1].idempotencyKey);
    }
  }

  lemma SubmitInOrder(w: World, t: nat, d: Draw, l: Lock)
    requires WorldInv(w) && t in w.txs && w.txs[t].phase.Locking? && TurnIn(w, t, d).Waits? && l in Held(w.txs[t])
    ensures InOrder(l, TurnIn(w, t, d).lock) && l != TurnIn(w, t, d).lock
  {
    BusyIsOthers(w, t);
    var tx := w.txs[t];
    assert KeyLock(SortedKeys(tx.intent.batch)[tx.phase.n]) in Busy(w.txs, t);
    var keys := SortedKeys(tx.intent.batch);
    KeysSorted(tx.intent.batch);
    var k :| k in keys[..tx.phase.n] && l == KeyLock(k);
    var a :| 0 <= a < tx.phase.n && keys[a] == k;
  }

  predicate Blocking(p: Phase) {
    p.Opening? || p.Claimed? || p.AtWorker? || p.Locking?
  }

  /** Once it has its job, or is scanning, a transaction waits for nobody. */
  lemma NeverWaits(w: World, t: nat, d: Draw)
    requires WorldInv(w) && t in w.txs && !Blocking(w.txs[t].phase)
    ensures !TurnIn(w, t, d).Waits?
  {
    var p := w.txs[t].phase;
    if p.Rechecking? { RecheckFree(w, t); }
    else if p.ActingOn? { ActFree(w, t); }
    else if p.AtJob? { FenceFree(w, t, d); }
    else { PlainTurn(w.db, w.now, Busy(w.txs, t), w.txs[t], d); }
  }

  /** The other statements that wait for nobody do not even look. */
  lemma PlainTurn(db: Db, now: int, busy: set<Lock>, tx: Tx, d: Draw)
    requires !Blocking(tx.phase) && !tx.phase.Rechecking? && !tx.phase.ActingOn? && !tx.phase.AtJob?
    ensures !TurnOf(db, now, busy, tx, d).Waits?
  {
  }

  /** Which locks a statement can have to wait for. */
  lemma WaitKinds(w: World, t: nat, d: Draw)
    requires t in w.txs && Blocking(w.txs[t].phase) && TurnIn(w, t, d).Waits?
    ensures var l := TurnIn(w, t, d).lock;
            match w.txs[t].phase
            case Opening => l.RequestLock?
            case Claimed => l.WorkerLock? || l.JobLock?
            case AtWorker(_, _) => l.JobLock?
            case Locking(_) => l.KeyLock?
            case _ => false
  {
  }

  /** A waiting transaction wants a lock that comes after every lock it holds. */
  lemma WaitsInOrder(w: World, t: nat, d: Draw, l: Lock)
    requires WorldInv(w) && t in w.txs && TurnIn(w, t, d).Waits? && l in Held(w.txs[t])
    ensures InOrder(l, TurnIn(w, t, d).lock) && l != TurnIn(w, t, d).lock
  {
    if !Blocking(w.txs[t].phase) { NeverWaits(w, t, d); }
    WaitKinds(w, t, d);
    if w.txs[t].phase.Locking? { SubmitInOrder(w, t, d, l); }
  }

  // ------------------------------------------------------------------ no deadlock

  function Level(l: Lock): nat {
    match l
    case RequestLock(_) => 0
    case WorkerLock(_) => 1
    case JobLock(_) => 2
    case AttemptLock(_) => 3
    case KeyLock(_) => 0
  }

  /** Lock m comes after lock l. */
  predicate Further(l: Lock, m: Lock) {
    Level(l) < Level(m) || (l.KeyLock? && m.KeyLock? && Less(l.text, m.text))
  }

  lemma FurtherTransitive(a: Lock, b: Lock, c: Lock)
    requires Further(a, b) && Further(b, c)
    ensures Further(a, c)
  {
    if a.KeyLock? && b.KeyLock? && c.KeyLock? && Less(a.text, b.text) && Less(b.text, c.text) {
      LessTransitive(a.text, b.text, c.text);
    }
  }

  lemma {:induction false} LastLock(locks: set<Lock>) returns (m: Lock)
    requires locks != {}
    ensures m in locks && forall l :: l in locks ==> !Further(m, l)
    decreases |locks|
  {
    var l :| l in locks;
    if l.KeyLock? { LessTotal(l.text, l.text); }
    var rest := locks - {l};
    assert locks == rest + {l};
    if rest == {} {
      m := l;
    } else {
      m := LastLock(rest);
      if Further(m, l) {
        forall k | k in rest ensures !Further(l, k) {
          if Further(l, k) { FurtherTransitive(m, l, k); }
        }
        m := l;
      }
    }
  }

  /** The blocker of a waiting transaction, if it waits itself, waits for a later lock. */
  lemma BlockerWaitsFurther(w: World, t: nat, u: nat, d: Draw, e: Draw)
    requires WorldInv(w) && WaitsFor(w, t, u, d) && TurnIn(w, u, e).Waits?
    ensures Further(TurnIn(w, t, d).lock, TurnIn(w, u, e).lock)
  {
    var l, m := TurnIn(w, t, d).lock, TurnIn(w, u, e).lock;
    WaitsInOrder(w, u, e, l);
    if l.KeyLock? { LessTotal(l.text, m.text); }
  }

  /** Transaction t waits for lock l, which u holds. */
  ghost predicate WaitsAt(w: World, t: nat, l: Lock, u: nat) {
    exists d :: WaitsFor(w, t, u, d) && TurnIn(w, t, d).lock == l
  }

  lemma WaitsAtFurther(w: World, t: nat, l: Lock, u: nat, m: Lock, v: nat)
    requires WorldInv(w) && WaitsAt(w, t, l, u) && WaitsAt(w, u, m, v)
    ensures Further(l, m)
  {
    var d :| WaitsFor(w, t, u, d) && TurnIn(w, t, d).lock == l;
    var e :| WaitsFor(w, u, v, e) && TurnIn(w, u, e).lock == m;
    BlockerWaitsFurther(w, t, u, d, e);
  }

  /** Every member of s waits for a lock that another member of s holds. */
  ghost predicate Stuck(w: World, s: set<nat>) {
    forall t :: t in s ==> Blocked(s, (t: nat, l: Lock, u: nat) => WaitsAt(w, t, l, u), t)
  }

  ghost predicate Blocked(s: set<nat>, waits: (nat, Lock, nat) -> bool, t: nat) {
    exists l, u :: u in s && waits(t, l, u)
  }

  lemma {:induction false} ChooseBlockers(s: set<nat>, waits: (nat, Lock, nat) -> bool, rest: set<nat>)
    returns (want: map<nat, Lock>, holder: map<nat, nat>)
    requires forall t :: t in rest ==> Blocked(s, waits, t)
    ensures want.Keys == rest && holder.Keys == rest
    ensures forall t :: t in rest ==> holder[t] in s && waits(t, want[t], holder[t])
    decreases |rest|
  {
    want, holder := map[], map[];
    if rest != {} {
      var t :| t in rest;
      want, holder := ChooseBlockers(s, waits, rest - {t});
      assert Blocked(s, waits, t);
      var l, u :| u in s && waits(t, l, u);
      want, holder := want[t := l], holder[t := u];
    }
  }

  /** Locks that come ever later cannot come round again. */
  lemma NoCycle(s: set<nat>, want: map<nat, Lock>, holder: map<nat, nat>)
    requires want.Keys == s && holder.Keys == s
    requires forall t :: t in s ==> holder[t] in s && Further(want[t], want[holder[t]])
    ensures s == {}
  {
    if s != {} {
      var locks := set t | t in s :: want[t];
      var t :| t in s;
      assert want[t] in locks;
      var m := LastLock(locks);
    }
  }

  /** No set of transactions is ever stuck waiting for one another's locks. */
  lemma NoDeadlock(w: World, s: set<nat>)
    requires WorldInv(w) && Stuck(w, s)
    ensures s == {}
  {
    var waits := (t: nat, l: Lock, u: nat) => WaitsAt(w, t, l, u);
    var want, holder := ChooseBlockers(s, waits, s);
    forall t | t in s ensures Further(want[t], want[holder[t]]) {
      WaitsAtFurther(w, t, want[t], holder[t], want[holder[t]], holder[holder[t]]);
    }
    NoCycle(s, want, holder);
  }

  /** In no interleaving from empty tables does every transaction of a nonempty set wait for another. */
  lemma NeverDeadlocked(leaseMs: int, now: int, ms: seq<Micro>, s: set<nat>)
    requires 2000 <= leaseMs && Stuck(After(World(Empty(leaseMs), now, map[]), ms), s)
    ensures s == {}
  {
    InterleavedIsReachable(leaseMs, now, ms);
    NoDeadlock(After(World(Empty(leaseMs), now, map[]), ms), s);
  }
}
