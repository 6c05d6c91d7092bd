/** Whole interleaved runs: every one of them is an atomic run. */
module Worlds {
  import opened Model
  import opened Transactions
  import opened Steps
  import opened Runs
  import opened Receipts
  import opened Guarantees
  import opened Interleaving
  import opened Knowledge
  import opened Refinement

  ghost predicate Apart(txs: map<nat, Tx>) {
    forall t, u :: t in txs && u in txs && t != u ==> Held(txs[t]) !! Held(txs[u])
  }

  ghost predicate WorldInv(w: World) {
    && Inv(w.db) && LeaseBound(w.db, w.now)
    && (forall t :: t in w.txs ==> Knows(w.db, w.now, w.txs[t]))
    && Apart(w.txs)
  }

  lemma WriteTurn(db: Db, now: int, busy: set<Lock>, tx: Tx, d: Draw)
    requires Ready(db, now, busy, tx) && FreshDraw(db, busy, d) && tx.phase.AtAttempt?
    ensures Sane(db, now, busy, tx, TurnWrite(db, now, tx.intent, tx.phase, d))
  {
    if tx.intent.call == Heartbeat { RenewTurn(db, now, busy, tx, d); }
    else if tx.intent.call == StartAttempt { StartTurn(db, now, busy, tx, d); }
    else if TurnWrite(db, now, tx.intent, tx.phase, d).Ends? { CheckRefuses(db, now, busy, tx, d); }
    else if TurnWrite(db, now, tx.intent, tx.phase, d).Goes? { CheckGoes(db, now, busy, tx, d); }
  }

  lemma OpenTurn(db: Db, now: int, busy: set<Lock>, tx: Tx, d: Draw)
    requires Ready(db, now, busy, tx) && FreshDraw(db, busy, d) && tx.phase.Opening?
    ensures Sane(db, now, busy, tx, TurnOf(db, now, busy, tx, d))
  {
    if tx.intent.Calling? || tx.intent.Acting? {
      ClaimTurn(db, now, busy, tx, d);
    } else if tx.intent.Reaping? && Scan(db, now, d.todo) {
      assert [] + d.todo == d.todo;
    }
  }

  /** Whatever a transaction has got to, its next statement goes or ends well. */
  lemma TurnSane(db: Db, now: int, busy: set<Lock>, tx: Tx, d: Draw)
    requires Ready(db, now, busy, tx)
    ensures Sane(db, now, busy, tx, TurnOf(db, now, busy, tx, d))
  {
    if FreshDraw(db, busy, d) {
      match tx.phase
      case Opening => OpenTurn(db, now, busy, tx, d);
      case Claimed => if tx.intent.Calling? { WorkerTurn(db, now, busy, tx, d); } else { ActLockTurn(db, now, busy, tx); }
      case Registering(_, _) => RegisterTurn(db, now, busy, tx, d);
      case AtWorker(_, _) => MethodTurn(db, now, busy, tx, d);
      case Counted(_, _, _) => ScanTurn(db, now, busy, tx, d);
      case Picked(_, _, _, _, _, _) => PlaceTurn(db, now, busy, tx, d);
      case Placed(_, _, _, _, _, _, _, _, _) => GrantTurn(db, now, busy, tx, d);
      case AtJob(_, _, _, _, _) => FenceTurn(db, now, busy, tx, d);
      case AtAttempt(_, _, _, _, _, _, _) => WriteTurn(db, now, busy, tx, d);
      case Checked(_, _, _, _, _, _, _, _, _) => ReportTurn(db, now, busy, tx, d);
      case ActingOn(_) => ActTurn(db, now, busy, tx);
      case Locking(_) => SubmitTurn(db, now, busy, tx, d);
      case Scanned(_, _) => ScanLockTurn(db, now, busy, tx);
      case Rechecking(_, _) => RecheckTurn(db, now, busy, tx);
    }
  }

  // ------------------------------------------------------------------ one statement keeps the world sound

  lemma BusyIsOthers(w: World, t: nat)
    requires WorldInv(w) && t in w.txs
    ensures Ready(w.db, w.now, Busy(w.txs, t), w.txs[t])
  {
    assert Held(w.txs[t]) !! Busy(w.txs, t);
  }

  lemma GoesKeeps(w: World, t: nat, p: Phase)
    requires WorldInv(w) && t in w.txs
    requires GoesWell(w.db, w.now, Busy(w.txs, t), w.txs[t], p)
    ensures WorldInv(w.(txs := w.txs[t := w.txs[t].(phase := p)]))
  {
    var tx := w.txs[t].(phase := p);
    forall u | u in w.txs && u != t ensures Held(tx) !! Held(w.txs[u]) {
      assert forall l :: l in Held(w.txs[u]) ==> l in Busy(w.txs, t);
    }
  }

  lemma EndsKeeps(w: World, t: nat, after: Db, result: Result, c: Command)
    requires WorldInv(w) && t in w.txs
    requires EndsWell(w.db, w.now, w.txs[t], after, result, c)
    ensures WorldInv(World(after, w.now, w.txs - {t}))
  {
    EvolvesReflexive(w.db);
    if !Raced(w.db, w.txs[t], after, result) { StepKeeps(w.db, c); }
    forall u | u in w.txs && u != t ensures Knows(after, w.now, w.txs[u]) {
      assert Held(w.txs[t]) !! Held(w.txs[u]);
      KnowsStable(w.db, after, w.now, w.txs[u], Held(w.txs[t]));
    }
  }

  lemma TickKeeps(w: World, ms: nat)
    requires WorldInv(w)
    ensures WorldInv(w.(now := w.now + ms))
  {
    AllKnowLater(w.db, w.now, w.now + ms, w.txs);
    BoundLater(w.db, w.now, w.now + ms);
  }

  lemma AllKnowLater(db: Db, now: int, later: int, txs: map<nat, Tx>)
    requires now <= later && forall t :: t in txs ==> Knows(db, now, txs[t])
    ensures forall t :: t in txs ==> Knows(db, later, txs[t])
  {
    forall t | t in txs ensures Knows(db, later, txs[t]) {
      KnowsLater(db, now, later, txs[t]);
    }
  }

  lemma BoundLater(db: Db, now: int, later: int)
    requires LeaseBound(db, now) && now <= later
    ensures LeaseBound(db, later)
  {
  }

  lemma BeginKeeps(w: World, t: nat, i: Intent)
    requires WorldInv(w) && t !in w.txs && Admissible(i)
    ensures WorldInv(w.(txs := w.txs[t := Tx(i, w.now, Opening)]))
  {
    assert Held(Tx(i, w.now, Opening)) == {};
  }

  lemma StatementKeeps(w: World, t: nat, d: Draw)
    requires WorldInv(w) && t in w.txs
    ensures WorldInv(Next(w, Run(t, d)))
  {
    BusyIsOthers(w, t);
    TurnSane(w.db, w.now, Busy(w.txs, t), w.txs[t], d);
    var turn := TurnIn(w, t, d);
    if turn.Goes? { GoesKeeps(w, t, turn.phase); }
    if turn.Ends? { EndsKeeps(w, t, turn.db, turn.result, turn.command); }
  }

  lemma NextKeeps(w: World, m: Micro)
    requires WorldInv(w)
    ensures WorldInv(Next(w, m))
  {
    match m
    case Tick(ms) => TickKeeps(w, ms);
    case Begin(t, i) => if t !in w.txs && Admissible(i) { BeginKeeps(w, t, i); }
    case Rollback(t) =>
    case Run(t, d) => if t in w.txs { StatementKeeps(w, t, d); }
  }

  // ------------------------------------------------------------------ refinement

  predicate OwnCommand(i: Intent, c: Command) {
    if i.Calling? then c.Rpc? && c.call == i.call && c.request == i.request else !c.Rpc?
  }

  lemma EarlyCommand(db: Db, now: int, busy: set<Lock>, tx: Tx, d: Draw)
    requires tx.phase.Opening? || tx.phase.Claimed? || tx.phase.Registering? || tx.phase.AtWorker? || tx.phase.Counted?
    requires TurnOf(db, now, busy, tx, d).Ends?
    ensures OwnCommand(tx.intent, TurnOf(db, now, busy, tx, d).command)
  {
  }

  lemma LateCommand(db: Db, now: int, busy: set<Lock>, tx: Tx, d: Draw)
    requires HasJob(tx.phase) && TurnOf(db, now, busy, tx, d).Ends?
    ensures OwnCommand(tx.intent, TurnOf(db, now, busy, tx, d).command)
  {
  }

  /** The command at a transaction's end is the one it was begun for. */
  lemma EndsOwnCommand(db: Db, now: int, busy: set<Lock>, tx: Tx, d: Draw)
    requires TurnOf(db, now, busy, tx, d).Ends?
    ensures OwnCommand(tx.intent, TurnOf(db, now, busy, tx, d).command)
  {
    if tx.phase.Opening? || tx.phase.Claimed? || tx.phase.Registering? || tx.phase.AtWorker? || tx.phase.Counted? {
      EarlyCommand(db, now, busy, tx, d);
    } else if HasJob(tx.phase) {
      LateCommand(db, now, busy, tx, d);
    }
  }

  /** The atomic command that a statement completes, if any. */
  ghost function Committed(w: World, m: Micro): seq<Command> {
    if m.Run? && m.t in w.txs && TurnIn(w, m.t, m.d).Ends?
       && !Raced(w.db, w.txs[m.t], TurnIn(w, m.t, m.d).db, TurnIn(w, m.t, m.d).result)
    then [TurnIn(w, m.t, m.d).command] else []
  }

  /** A transaction that ends gives the answer its atomic command gives at that moment, all of whose
      clock readings fall between its beginning and now; only losing the race for an object key is
      answered otherwise, and then nothing changes. */
  lemma EndsAtomically(w: World, t: nat, d: Draw)
    requires WorldInv(w) && t in w.txs && TurnIn(w, t, d).Ends?
    ensures var turn := TurnIn(w, t, d);
            if Raced(w.db, w.txs[t], turn.db, turn.result) then turn.db == w.db
            else Legal(w.db, turn.command) && Timely(turn.command, w.txs[t].begun, w.now)
                 && Apply(w.db, turn.command) == (turn.db, turn.result)
  {
    BusyIsOthers(w, t);
    TurnSane(w.db, w.now, Busy(w.txs, t), w.txs[t], d);
  }

  lemma NextRefines(w: World, m: Micro)
    requires WorldInv(w)
    ensures LegalRun(w.db, Committed(w, m)) && Next(w, m).db == Final(w.db, Committed(w, m))
  {
    if m.Run? && m.t in w.txs && TurnIn(w, m.t, m.d).Ends? {
      EndsAtomically(w, m.t, m.d);
      RunOne(w.db, TurnIn(w, m.t, m.d).command);
    }
  }

  ghost function After(w: World, ms: seq<Micro>): World
    decreases |ms|
  {
    if ms == [] then w else After(Next(w, ms[0]), ms[1..])
  }

  /** The commands of an interleaved run in the order of their commits. */
  ghost function Trace(w: World, ms: seq<Micro>): seq<Command>
    decreases |ms|
  {
    if ms == [] then [] else Committed(w, ms[0]) + Trace(Next(w, ms[0]), ms[1..])
  }

  lemma {:induction false} InterleavingRefines(w: World, ms: seq<Micro>)
    requires WorldInv(w)
    ensures WorldInv(After(w, ms))
    ensures LegalRun(w.db, Trace(w, ms)) && After(w, ms).db == Final(w.db, Trace(w, ms))
    decreases |ms|
  {
    if ms != [] {
      var next := Next(w, ms[0]);
      NextKeeps(w, ms[0]);
      NextRefines(w, ms[0]);
      InterleavingRefines(next, ms[1..]);
      RunConcat(w.db, Committed(w, ms[0]), Trace(next, ms[1..]));
    }
  }

  /** Every state an interleaved run of statements can reach from empty tables is reached by an
      atomic run; so everything proved of reachable states holds under any interleaving. */
  lemma InterleavedIsReachable(leaseMs: int, now: int, ms: seq<Micro>)
    requires 2000 <= leaseMs
    ensures Reachable(After(World(Empty(leaseMs), now, map[]), ms).db)
    ensures WorldInv(After(World(Empty(leaseMs), now, map[]), ms))
  {
    var w := World(Empty(leaseMs), now, map[]);
    EmptyInv(leaseMs);
    InterleavingRefines(w, ms);
    assert ReachedBy(After(w, ms).db, leaseMs, Trace(w, ms));
  }

  /** Although a lease reads the worker's reservations before it picks a job and inserts the attempt,
      no interleaving overcommits a worker. */
  lemma CapacityUnderInterleaving(leaseMs: int, now: int, ms: seq<Micro>, worker: WorkerId)
    requires 2000 <= leaseMs
    ensures var db := After(World(Empty(leaseMs), now, map[]), ms).db;
            worker in db.workers ==> Usage(db, worker).AtMost(db.workers[worker].capacity)
  {
    InterleavedIsReachable(leaseMs, now, ms);
  }

  // ------------------------------------------------------------------ a fresh name is always to be had

  lemma {:induction false} LongName(used: set<AttemptId>) returns (n: nat)
    ensures forall a :: a in used ==> |a.text| < n
  {
    if used == {} {
      n := 0;
    } else {
      var a :| a in used;
      var m := LongName(used - {a});
      n := if m <= |a.text| then |a.text| + 1 else m;
    }
  }

  lemma FreshDrawExists(db: Db, busy: set<Lock>) returns (d: Draw)
    ensures FreshDraw(db, busy, d)
  {
    var held := set l | l in busy && l.AttemptLock? :: l.attempt;
    var n := LongName(db.attempts.Keys + held);
    var a := AttemptId(seq(n, _ => 'x'));
    assert AttemptLock(a) in busy ==> a in held;
    d := Draw(a, Token(""), [], []);
  }
}
