/** Leases that ran out under interleaving: the fence and the write behind it read the clock apart. */
module Revival {
  import opened Model
  import opened ObjectKeys
  import opened Transactions
  import opened Invariant
  import opened Moves
  import opened Steps
  import opened Causes
  import opened Guarantees
  import opened ArtifactRows
  import opened Interleaving
  import opened Knowledge
  import opened Refinement
  import opened Worlds

  /** The transaction has been let through the fence of attempt `a`. */
  predicate PastFence(tx: Tx, a: AttemptId) {
    tx.intent.Calling? && (tx.phase.AtAttempt? || tx.phase.Checked?) && tx.phase.a == a
  }

  /** What it read of the artifacts does not stand in the way of its report. */
  ghost predicate ReportStands(db: Db, tx: Tx)
    requires tx.intent.Calling? && (tx.phase.AtAttempt? || tx.phase.Checked?)
  {
    var i, p := tx.intent, tx.phase;
    if p.Checked? then !KeyRace(db, p.added)
    else p.attempt.state == RUNNING && !TooLarge(i.request)
         && AddArtifacts(db.artifacts, p.j, p.a, PrefixOf(i, p), i.request.artifacts).Rows?
  }

  /** The call it makes changes the attempt's row: a renewal short of the deadline, a first start, or
      a final report that will be accepted. */
  ghost predicate Writes(db: Db, tx: Tx, a: AttemptId) {
    && PastFence(tx, a)
    && var i, p := tx.intent, tx.phase;
    match i.call
    case Heartbeat => p.AtAttempt? && p.attempt.leaseExpiresAt < p.attempt.deadlineAt
    case StartAttempt => p.AtAttempt? && p.attempt.state == LEASED
    case CompleteAttempt => i.request.exitCode == 0 && ReportStands(db, tx)
    case FailAttempt => ReportStands(db, tx)
    case _ => false
  }

  // ------------------------------------------------------------------ what is checked once stays checked

  /** A report refused for its artifacts is refused over any later table. */
  lemma {:induction false} BadStays(early: seq<ArtifactRow>, late: seq<ArtifactRow>, j: JobId, a: AttemptId, prefix: string,
                                    list: seq<Artifact>)
    requires Extends(early, late) && AddArtifacts(early, j, a, prefix, list).Bad?
    ensures AddArtifacts(late, j, a, prefix, list).Bad?
    decreases |list|
  {
    if ArtifactAccepted(prefix, list[0]) {
      var row := ArtifactRow(j, a, list[0]);
      if FindArtifact(early, list[0].key).Some? {
        if FindArtifact(early, list[0].key).value == list[0] { BadStays(early, late, j, a, prefix, list[1..]); }
      } else if FindArtifact(late, list[0].key).None? {
        ExtendsAppend(early, late, row);
        BadStays(early + [row], late + [row], j, a, prefix, list[1..]);
      } else if FindArtifact(late, list[0].key).value == list[0] {
        FoundExtends(early, late, row);
        BadStays(early + [row], late, j, a, prefix, list[1..]);
      }
    }
  }

  lemma FoundExtends(early: seq<ArtifactRow>, late: seq<ArtifactRow>, row: ArtifactRow)
    requires Extends(early, late) && FindArtifact(late, row.meta.key) == Some(row.meta)
    ensures Extends(early + [row], late)
  {
    forall key | FindArtifact(early + [row], key).Some? ensures FindArtifact(late, key) == FindArtifact(early + [row], key) {
      FindAppend(early, [row], key);
      FindOne(row, key);
    }
  }

  /** Commits of others can only take from a report, never give to it. */
  lemma WritesEarlier(db: Db, after: Db, tx: Tx, a: AttemptId)
    requires db.artifacts <= after.artifacts && Writes(after, tx, a)
    ensures Writes(db, tx, a)
  {
    var i, p := tx.intent, tx.phase;
    PrefixExtends(db.artifacts, after.artifacts);
    if p.AtAttempt? && AddArtifacts(db.artifacts, p.j, p.a, PrefixOf(i, p), i.request.artifacts).Bad? {
      BadStays(db.artifacts, after.artifacts, p.j, p.a, PrefixOf(i, p), i.request.artifacts);
    }
  }

  // ------------------------------------------------------------------ who can still change the row

  /** Short of the fence a call on an attempt ends without changing any. */
  lemma OnlyPastFence(db: Db, now: int, busy: set<Lock>, tx: Tx, d: Draw)
    requires Knows(db, now, tx) && tx.intent.Calling? && OnAttemptCall(tx.intent.call)
    requires TurnOf(db, now, busy, tx, d).Ends? && !tx.phase.AtAttempt? && !tx.phase.Checked?
    ensures TurnOf(db, now, busy, tx, d).db.attempts == db.attempts
  {
  }

  /** Past it, a call that does not write leaves the lapsed row as it is. */
  lemma UnwrittenAtAttempt(db: Db, now: int, tx: Tx, d: Draw, a: AttemptId)
    requires PastFence(tx, a) && tx.phase.AtAttempt? && !Writes(db, tx, a) && 0 <= db.leaseMs
    requires a in db.attempts && db.attempts[a] == tx.phase.attempt
    requires tx.phase.attempt.leaseExpiresAt <= tx.phase.attempt.deadlineAt && tx.phase.attempt.leaseExpiresAt <= now
    requires TurnWrite(db, now, tx.intent, tx.phase, d).Ends?
    ensures a in TurnWrite(db, now, tx.intent, tx.phase, d).db.attempts
    ensures TurnWrite(db, now, tx.intent, tx.phase, d).db.attempts[a] == db.attempts[a]
  {
  }

  lemma UnwrittenChecked(db: Db, now: int, tx: Tx, d: Draw, a: AttemptId)
    requires PastFence(tx, a) && tx.phase.Checked? && !Writes(db, tx, a) && a in db.attempts
    requires tx.intent.call in {ReportProgress, CompleteAttempt, FailAttempt}
    ensures TurnReport(db, now, tx.intent, tx.phase, d).Ends?
    ensures TurnReport(db, now, tx.intent, tx.phase, d).db.attempts == db.attempts
  {
  }

  lemma Unwritten(w: World, t: nat, d: Draw, a: AttemptId)
    requires WorldInv(w) && t in w.txs && TurnIn(w, t, d).Ends? && a in w.db.attempts
    requires PastFence(w.txs[t], a) && !Writes(w.db, w.txs[t], a) && w.db.attempts[a].leaseExpiresAt <= w.now
    ensures a in TurnIn(w, t, d).db.attempts && TurnIn(w, t, d).db.attempts[a] == w.db.attempts[a]
  {
    var tx := w.txs[t];
    assert Knows(w.db, w.now, tx);
    assert AttemptOk(w.db.jobs, w.db.attempts, w.db.workers, a);
    if tx.phase.AtAttempt? { UnwrittenAtAttempt(w.db, w.now, tx, d, a); }
    else { UnwrittenChecked(w.db, w.now, tx, d, a); }
  }

  /** The transaction that holds the lease in its hands is the one its call names. */
  lemma NamesItsAttempt(db: Db, now: int, tx: Tx)
    requires Knows(db, now, tx) && tx.intent.Calling? && (tx.phase.AtAttempt? || tx.phase.Checked?)
    ensures tx.phase.a == NamedAttempt(tx.intent.request.attempt)
  {
  }

  /** Whoever commits, a lapsed row that nobody is about to write only expires or is cancelled. */
  lemma EndLapses(w: World, t: nat, d: Draw, a: AttemptId)
    requires WorldInv(w) && t in w.txs && TurnIn(w, t, d).Ends? && a in w.db.attempts
    requires !Writes(w.db, w.txs[t], a) && w.db.attempts[a].leaseExpiresAt <= w.now
    ensures a in TurnIn(w, t, d).db.attempts && Lapsed(w.db.attempts[a], TurnIn(w, t, d).db.attempts[a])
  {
    var tx, turn := w.txs[t], TurnIn(w, t, d);
    EndsAtomically(w, t, d);
    if !Raced(w.db, tx, turn.db, turn.result) {
      StepAccounts(w.db, turn.command, a);
      EndsOwnCommand(w.db, w.now, Busy(w.txs, t), tx, d);
      if turn.db.attempts[a] != w.db.attempts[a] {
        CausedLapses(turn.command, w.db.workers[w.db.attempts[a].worker].session, a, w.db.attempts[a], turn.db.attempts[a], tx.intent);
        if Names(tx.intent, a) { CallLapses(w, t, d, a); }
      }
    }
  }

  predicate Names(i: Intent, a: AttemptId) {
    i.Calling? && OnAttemptCall(i.call) && NamedAttempt(i.request.attempt) == a
  }

  lemma CausedLapses(c: Command, session: SessionId, a: AttemptId, was: Attempt, now: Attempt, i: Intent)
    requires Caused(c, session, a, was, now) && OwnCommand(i, c)
    ensures (now.state in {EXPIRED, CANCELLED} && now.leaseExpiresAt == was.leaseExpiresAt) || Names(i, a)
  {
  }

  lemma CallLapses(w: World, t: nat, d: Draw, a: AttemptId)
    requires WorldInv(w) && t in w.txs && TurnIn(w, t, d).Ends? && a in w.db.attempts
    requires !Writes(w.db, w.txs[t], a) && w.db.attempts[a].leaseExpiresAt <= w.now
    requires Names(w.txs[t].intent, a)
    ensures a in TurnIn(w, t, d).db.attempts && TurnIn(w, t, d).db.attempts[a] == w.db.attempts[a]
  {
    var tx := w.txs[t];
    if tx.phase.AtAttempt? || tx.phase.Checked? {
      NamesItsAttempt(w.db, w.now, tx);
      Unwritten(w, t, d, a);
    } else {
      OnlyPastFence(w.db, w.now, Busy(w.txs, t), tx, d);
    }
  }

  // ------------------------------------------------------------------ if nobody writes, nothing revives

  /** The row has lapsed, and no transaction under way is about to write it. */
  ghost predicate Doomed(w: World, a: AttemptId, was: Attempt) {
    && a in w.db.attempts && Lapsed(was, w.db.attempts[a]) && was.leaseExpiresAt <= w.now
    && forall t :: t in w.txs ==> !Writes(w.db, w.txs[t], a)
  }

  /** A lapsed attempt lets nobody through its fence. */
  lemma NoEntry(w: World, t: nat, d: Draw, a: AttemptId)
    requires WorldInv(w) && t in w.txs && TurnIn(w, t, d).Goes? && a in w.db.attempts
    requires w.db.attempts[a].leaseExpiresAt <= w.now && !Writes(w.db, w.txs[t], a)
    ensures !Writes(w.db, w.txs[t].(phase := TurnIn(w, t, d).phase), a)
  {
    var tx := w.txs[t];
    var next := tx.(phase := TurnIn(w, t, d).phase);
    assert Knows(w.db, w.now, tx);
    if PastFence(next, a) { EntersPast(w.db, w.now, Busy(w.txs, t), tx, d, a); }
  }

  lemma EntersPast(db: Db, now: int, busy: set<Lock>, tx: Tx, d: Draw, a: AttemptId)
    requires Knows(db, now, tx) && TurnOf(db, now, busy, tx, d).Goes? && a in db.attempts
    requires db.attempts[a].leaseExpiresAt <= now && !Writes(db, tx, a)
    requires PastFence(tx.(phase := TurnOf(db, now, busy, tx, d).phase), a)
    ensures !Writes(db, tx.(phase := TurnOf(db, now, busy, tx, d).phase), a)
  {
    var p := TurnOf(db, now, busy, tx, d).phase;
    assert tx.phase.AtJob? || tx.phase.AtAttempt?;
  }

  lemma RunDoomed(w: World, t: nat, d: Draw, a: AttemptId, was: Attempt)
    requires WorldInv(w) && Doomed(w, a, was) && t in w.txs
    ensures Doomed(Next(w, Run(t, d)), a, was)
  {
    var turn := TurnIn(w, t, d);
    if turn.Goes? {
      NoEntry(w, t, d, a);
    } else if turn.Ends? {
      EndLapses(w, t, d, a);
      EndsAtomically(w, t, d);
      EndGrows(w, t, d);
      forall u | u in w.txs && u != t ensures !Writes(turn.db, w.txs[u], a) {
        if Writes(turn.db, w.txs[u], a) { WritesEarlier(w.db, turn.db, w.txs[u], a); }
      }
    }
  }

  lemma EndGrows(w: World, t: nat, d: Draw)
    requires WorldInv(w) && t in w.txs && TurnIn(w, t, d).Ends?
    ensures w.db.artifacts <= TurnIn(w, t, d).db.artifacts
  {
    BusyIsOthers(w, t);
    TurnSane(w.db, w.now, Busy(w.txs, t), w.txs[t], d);
  }

  lemma NextDoomed(w: World, m: Micro, a: AttemptId, was: Attempt)
    requires WorldInv(w) && Doomed(w, a, was)
    ensures Doomed(Next(w, m), a, was)
  {
    if m.Run? && m.t in w.txs { RunDoomed(w, m.t, m.d, a, was); }
  }

  lemma {:induction false} StaysDoomed(w: World, ms: seq<Micro>, a: AttemptId, was: Attempt)
    requires WorldInv(w) && Doomed(w, a, was)
    ensures Doomed(After(w, ms), a, was)
    decreases |ms|
  {
    if ms != [] {
      NextKeeps(w, ms[0]);
      NextDoomed(w, ms[0], a, was);
      StaysDoomed(Next(w, ms[0]), ms[1..], a, was);
    }
  }

  // ------------------------------------------------------------------ if somebody writes, it does

  /** The row is live or ended by a report although its lease had run out. */
  predicate Revived(was: Attempt, now: Attempt) {
    !Lapsed(was, now)
  }

  lemma WriterAtAttempt(db: Db, now: int, tx: Tx, d: Draw, a: AttemptId)
    requires Writes(db, tx, a) && tx.phase.AtAttempt? && tx.intent.call in {Heartbeat, StartAttempt}
    requires a in db.attempts && db.attempts[a] == tx.phase.attempt && Live(tx.phase.attempt.state)
    requires tx.phase.attempt.leaseExpiresAt < now + db.leaseMs
    ensures var turn := TurnWrite(db, now, tx.intent, tx.phase, d);
            && turn.Ends? && a in turn.db.attempts && Revived(db.attempts[a], turn.db.attempts[a])
            && (tx.intent.call == Heartbeat ==>
                  turn.db.attempts[a].leaseExpiresAt == Min(tx.phase.attempt.deadlineAt, now + db.leaseMs))
  {
  }

  lemma WriterChecked(db: Db, now: int, tx: Tx, d: Draw, a: AttemptId)
    requires Writes(db, tx, a) && tx.phase.Checked? && tx.intent.call in {CompleteAttempt, FailAttempt}
    requires a in db.attempts && db.attempts[a] == tx.phase.attempt && Live(tx.phase.attempt.state)
    ensures var turn := TurnReport(db, now, tx.intent, tx.phase, d);
            turn.Ends? && a in turn.db.attempts && Revived(db.attempts[a], turn.db.attempts[a])
  {
  }

  /** The statement that writes the row, or the one that reports. */
  lemma LateTurn(w: World, t: nat, d: Draw)
    requires t in w.txs && w.txs[t].intent.Calling? && FreshDraw(w.db, Busy(w.txs, t), d)
    requires w.txs[t].phase.AtAttempt? || w.txs[t].phase.Checked?
    ensures TurnIn(w, t, d)
         == if w.txs[t].phase.AtAttempt? then TurnWrite(w.db, w.now, w.txs[t].intent, w.txs[t].phase, d)
            else TurnReport(w.db, w.now, w.txs[t].intent, w.txs[t].phase, d)
  {
  }

  lemma EndNext(w: World, t: nat, d: Draw, turn: Turn)
    requires t in w.txs && turn == TurnIn(w, t, d) && turn.Ends?
    ensures Next(w, Run(t, d)) == World(turn.db, w.now, w.txs - {t})
  {
  }

  /** What a transaction past the fence knows of the row. */
  lemma KnowsRow(db: Db, now: int, tx: Tx, a: AttemptId)
    requires Knows(db, now, tx) && PastFence(tx, a)
    ensures a in db.attempts && db.attempts[a] == tx.phase.attempt && Live(tx.phase.attempt.state)
    ensures tx.phase.Checked? ==> tx.intent.call in {ReportProgress, CompleteAttempt, FailAttempt}
  {
  }

  /** One statement from its commit, a writer commits a row that has not lapsed. */
  lemma WriterCommits(w: World, t: nat, d: Draw, a: AttemptId)
    requires WorldInv(w) && t in w.txs && Writes(w.db, w.txs[t], a) && FreshDraw(w.db, Busy(w.txs, t), d)
    requires a in w.db.attempts && w.db.attempts[a].leaseExpiresAt <= w.now
    requires w.txs[t].phase.AtAttempt? ==> w.txs[t].intent.call in {Heartbeat, StartAttempt}
    ensures a in Next(w, Run(t, d)).db.attempts && Revived(w.db.attempts[a], Next(w, Run(t, d)).db.attempts[a])
  {
    var tx := w.txs[t];
    KnowsRow(w.db, w.now, tx, a);
    LateTurn(w, t, d);
    if tx.phase.AtAttempt? { WriterAtAttempt(w.db, w.now, tx, d, a); } else { WriterChecked(w.db, w.now, tx, d, a); }
    EndNext(w, t, d, TurnIn(w, t, d));
  }

  /** A report that will stand becomes one that has been checked. */
  lemma WriterChecks(w: World, t: nat, d: Draw, a: AttemptId)
    requires WorldInv(w) && t in w.txs && Writes(w.db, w.txs[t], a) && FreshDraw(w.db, Busy(w.txs, t), d)
    requires w.txs[t].phase.AtAttempt? && w.txs[t].intent.call in {CompleteAttempt, FailAttempt}
    ensures var v := Next(w, Run(t, d));
            v == w.(txs := v.txs) && t in v.txs && v.txs[t].phase.Checked? && Writes(v.db, v.txs[t], a)
            && Busy(v.txs, t) == Busy(w.txs, t)
  {
    var tx := w.txs[t];
    var i, p := tx.intent, tx.phase;
    var rows := AddArtifacts(w.db.artifacts, p.j, p.a, PrefixOf(i, p), i.request.artifacts).rows;
    AddedArtifacts(w.db.artifacts, p.j, p.a, PrefixOf(i, p), i.request.artifacts);
    var added := rows[|w.db.artifacts|..];
    assert rows == w.db.artifacts + added;
    forall k | 0 <= k < |added| ensures FindArtifact(w.db.artifacts, added[k].meta.key).None? {
      AddedAreNew(w.db.artifacts, p.j, p.a, PrefixOf(i, p), i.request.artifacts, added, k);
    }
    assert Knows(w.db, w.now, tx);
    ChecksNext(w, t, d, added);
  }

  lemma ChecksNext(w: World, t: nat, d: Draw, added: seq<ArtifactRow>)
    requires t in w.txs && FreshDraw(w.db, Busy(w.txs, t), d) && w.txs[t].phase.AtAttempt? && w.txs[t].intent.Calling?
    requires w.txs[t].intent.call in {CompleteAttempt, FailAttempt}
    requires w.txs[t].phase.attempt.state == RUNNING && !TooLarge(w.txs[t].intent.request)
    requires var i, p := w.txs[t].intent, w.txs[t].phase;
             AddArtifacts(w.db.artifacts, p.j, p.a, PrefixOf(i, p), i.request.artifacts) == Rows(w.db.artifacts + added)
    ensures var p := w.txs[t].phase;
            var next := w.txs[t].(phase := Checked(p.row, p.touchedAt, p.a, p.j, p.job, p.attempt, p.fencedAt, |w.db.artifacts|, added));
            Next(w, Run(t, d)) == w.(txs := w.txs[t := next])
    ensures Busy(Next(w, Run(t, d)).txs, t) == Busy(w.txs, t)
  {
    assert (w.db.artifacts + added)[|w.db.artifacts|..] == added;
    var p := w.txs[t].phase;
    BusySame(w.txs, t, w.txs[t].(phase := Checked(p.row, p.touchedAt, p.a, p.j, p.job, p.attempt, p.fencedAt, |w.db.artifacts|, added)));
  }

  lemma BusySame(txs: map<nat, Tx>, t: nat, tx: Tx)
    ensures Busy(txs[t := tx], t) == Busy(txs, t)
  {
    forall l ensures l in Busy(txs[t := tx], t) <==> l in Busy(txs, t) {
      if l in Busy(txs, t) {
        var u :| u in txs && u != t && l in Held(txs[u]);
        assert l in Held(txs[t := tx][u]);
      }
    }
  }

  lemma WriterRevives(w: World, t: nat, a: AttemptId) returns (ms: seq<Micro>)
    requires WorldInv(w) && t in w.txs && Writes(w.db, w.txs[t], a)
    requires a in w.db.attempts && w.db.attempts[a].leaseExpiresAt <= w.now
    ensures a in After(w, ms).db.attempts && Revived(w.db.attempts[a], After(w, ms).db.attempts[a])
  {
    var d := FreshDrawExists(w.db, Busy(w.txs, t));
    if w.txs[t].phase.AtAttempt? && w.txs[t].intent.call in {CompleteAttempt, FailAttempt} {
      WriterChecks(w, t, d, a);
      NextKeeps(w, Run(t, d));
      var v := Next(w, Run(t, d));
      WriterCommits(v, t, d, a);
      ms := [Run(t, d), Run(t, d)];
      TwoSteps(w, Run(t, d), Run(t, d));
    } else {
      WriterCommits(w, t, d, a);
      ms := [Run(t, d)];
      OneStep(w, Run(t, d));
    }
  }

  lemma OneStep(w: World, m: Micro)
    ensures After(w, [m]) == Next(w, m)
  {
    assert [m][1..] == [];
  }

  lemma TwoSteps(w: World, m: Micro, n: Micro)
    ensures After(w, [m, n]) == Next(Next(w, m), n)
  {
    assert [m, n][1..] == [n];
    OneStep(Next(w, m), n);
  }

  /** A live attempt whose lease has run out stays lapsed in every continuation exactly when no
      transaction under way has passed its fence with a call that writes the row. */
  lemma LapsedForGoodExactly(w: World, a: AttemptId)
    requires WorldInv(w) && a in w.db.attempts && w.db.attempts[a].leaseExpiresAt <= w.now
    ensures (forall ms :: a in After(w, ms).db.attempts && Lapsed(w.db.attempts[a], After(w, ms).db.attempts[a]))
       <==> (forall t :: t in w.txs ==> !Writes(w.db, w.txs[t], a))
  {
    if forall t :: t in w.txs ==> !Writes(w.db, w.txs[t], a) {
      forall ms ensures a in After(w, ms).db.attempts && Lapsed(w.db.attempts[a], After(w, ms).db.attempts[a]) {
        StaysDoomed(w, ms, a, w.db.attempts[a]);
      }
    } else {
      var t :| t in w.txs && Writes(w.db, w.txs[t], a);
      var ms := WriterRevives(w, t, a);
    }
  }

  /** A renewal past its fence commits whatever has become of the lease meanwhile. */
  lemma RenewsLate(w: World, t: nat, d: Draw, a: AttemptId)
    requires t in w.txs && PastFence(w.txs[t], a) && w.txs[t].phase.AtAttempt? && w.txs[t].intent.call == Heartbeat
    requires a in w.db.attempts && w.db.attempts[a] == w.txs[t].phase.attempt && Live(w.db.attempts[a].state)
    requires w.db.attempts[a].leaseExpiresAt <= w.now < w.db.attempts[a].deadlineAt
    requires 0 < w.db.leaseMs && FreshDraw(w.db, Busy(w.txs, t), d)
    ensures var v := Next(w, Run(t, d));
            && a in v.db.attempts && v.db.attempts[a].leaseExpiresAt > w.now
            && Revived(w.db.attempts[a], v.db.attempts[a])
  {
    LateTurn(w, t, d);
    WriterAtAttempt(w.db, w.now, w.txs[t], d, a);
    EndNext(w, t, d, TurnIn(w, t, d));
  }

  /** It does happen: a heartbeat that passed the fence in time, with the deadline still ahead, brings
      the lease back after it has run out. */
  lemma HeartbeatRevives(w: World, t: nat, d: Draw, a: AttemptId) returns (late: World, v: World)
    requires WorldInv(w) && t in w.txs && PastFence(w.txs[t], a) && w.txs[t].intent.call == Heartbeat
    requires w.now <= w.txs[t].phase.attempt.leaseExpiresAt < w.txs[t].phase.attempt.deadlineAt
    requires FreshDraw(w.db, Busy(w.txs, t), d)
    ensures late == Next(w, Micro.Tick(w.txs[t].phase.attempt.leaseExpiresAt - w.now)) && v == Next(late, Run(t, d))
    ensures a in late.db.attempts && late.db.attempts[a].leaseExpiresAt <= late.now
    ensures a in v.db.attempts && v.db.attempts[a].leaseExpiresAt > late.now
    ensures Revived(late.db.attempts[a], v.db.attempts[a])
  {
    KnowsRow(w.db, w.now, w.txs[t], a);
    late := w.(now := w.txs[t].phase.attempt.leaseExpiresAt);
    v := Next(late, Run(t, d));
    RenewsLate(late, t, d, a);
  }
}
