/** Workers on the other side of a network that may lose, delay and duplicate messages, with clocks
    that run at the server's rate but show another time. */
module Fleet {
  import opened Model
  import opened ObjectKeys
  import opened Transactions
  import opened Invariant
  import opened Moves
  import opened Evolution
  import opened Steps
  import opened Runs
  import opened Causes
  import opened Receipts
  import opened Refinement

  /** A call of RPC.call: one request, sent any number of times, and the local time of the first send. */
  datatype Call = Call(call: Method, request: Request, started: int)

  /** An answer on its way. Answers are never withdrawn: a lost one is simply never received. */
  datatype Reply = Reply(id: RequestId, result: Result)

  /** A lease as Worker.execute sees it. */
  datatype Holding = Holding(worker: WorkerId, job: JobId, number: int, deadline: int, lost: bool)

  datatype System = System(
    db: Db,
    now: int,
    skew: map<WorkerId, int>,
    calls: map<RequestId, Call>,
    replies: set<Reply>,
    holdings: map<AttemptId, Holding>)

  function Local(s: System, w: WorkerId): int {
    s.now + Skew(s, w)
  }

  function Skew(s: System, w: WorkerId): int {
    if w in s.skew then s.skew[w] else 0
  }

  /** alive() in Worker.execute. */
  predicate Alive(s: System, a: AttemptId)
    requires a in s.holdings
  {
    !s.holdings[a].lost && Local(s, s.holdings[a].worker) < s.holdings[a].deadline
  }

  /** The deadline RPC.call derives from a server TTL: counted from the first send, less half a second. */
  function LocalDeadline(started: int, leaseExpiresAt: int, serverTime: int): int {
    started + (leaseExpiresAt - serverTime) - 500
  }

  datatype Event =
    | Tick(ms: nat)
    | Issue(id: RequestId, call: Method, request: Request)
    | Serve(id: RequestId, met: Circumstances)
    | Refuse(id: RequestId, error: Error)
    | Serverside(command: Command)
    | Receive(reply: Reply)
    | Lose(a: AttemptId)

  /** When each event can happen. The server answers a call at any time after it was sent, and as
      often as copies of it arrive; its readings fall between the send and now. It may also fail a
      call without touching the tables. */
  ghost predicate Possible(s: System, e: Event) {
    match e
    case Tick(_) => true
    case Issue(id, call, request) => id !in s.calls && request.requestId == id
    case Serve(id, met) =>
      && id in s.calls
      && var c := Rpc(s.calls[id].call, s.calls[id].request, met);
      && Legal(s.db, c)
      && Timely(c, s.calls[id].started - Skew(s, s.calls[id].request.worker), s.now)
    case Refuse(id, _) => id in s.calls
    case Serverside(c) =>
      && !c.Rpc? && Legal(s.db, c)
      && (c.Reap? ==> forall slot :: slot in c.scan ==> slot.at <= s.now)
    case Receive(reply) => reply in s.replies
    case Lose(a) => a in s.holdings
  }

  function Received(s: System, reply: Reply): System
    requires reply.id in s.calls
  {
    var call := s.calls[reply.id];
    match reply.result
    case Ok(Leased(l)) =>
      if l.attempt in s.holdings then s
      else s.(holdings := s.holdings[l.attempt :=
                Holding(call.request.worker, l.job, l.number,
                        LocalDeadline(call.started, l.leaseExpiresAt, l.serverTime), false)])
    case Ok(Renewed(until, serverTime)) =>
      var a := NamedAttempt(call.request.attempt);
      if a !in s.holdings || s.holdings[a].worker != call.request.worker then s
      else s.(holdings := s.holdings[a := s.holdings[a].(deadline := LocalDeadline(call.started, until, serverTime))])
    case _ => s
  }

  ghost function Step(s: System, e: Event): System {
    match e
    case Tick(ms) => s.(now := s.now + ms)
    case Issue(id, call, request) => s.(calls := s.calls[id := Call(call, request, Local(s, request.worker))])
    case Serve(id, met) =>
      if id !in s.calls then s
      else
        var (db, result) := Apply(s.db, Rpc(s.calls[id].call, s.calls[id].request, met));
        s.(db := db, replies := s.replies + {Reply(id, result)})
    case Refuse(id, e) => s.(replies := s.replies + {Reply(id, Err(e))})
    case Serverside(c) => s.(db := Apply(s.db, c).0)
    case Receive(reply) => if reply.id !in s.calls then s else Received(s, reply)
    case Lose(a) => if a !in s.holdings then s else s.(holdings := s.holdings[a := s.holdings[a].(lost := true)])
  }

  // ------------------------------------------------------------------ what holds throughout

  /** An answer about a lease is backed by the row: the lease reaches at least as far, and the
      server read its clock after the call was first sent. */
  ghost predicate Vouched(s: System, call: Call, response: Response) {
    var skew := Skew(s, call.request.worker);
    match response
    case Leased(l) =>
      && l.attempt in s.db.attempts
      && var row := s.db.attempts[l.attempt];
      && row.worker == call.request.worker && row.job == l.job && row.number == l.number
      && l.leaseExpiresAt <= row.leaseExpiresAt
      && call.started <= l.serverTime + skew
    case Renewed(until, serverTime) =>
      && NamedAttempt(call.request.attempt) in s.db.attempts
      && var row := s.db.attempts[NamedAttempt(call.request.attempt)];
      && row.worker == call.request.worker
      && until <= row.leaseExpiresAt
      && call.started <= serverTime + skew
    case _ => true
  }

  function CallKey(c: Call): Key {
    RpcKey(c.call, c.request)
  }

  ghost predicate AnswerVouched(s: System, call: Call)
    requires CallKey(call) in s.db.requests
  {
    var answer := s.db.requests[CallKey(call)].response;
    answer.Some? ==> Vouched(s, call, answer.value)
  }

  ghost predicate CallsVouched(s: System) {
    && (forall id :: id in s.calls ==> s.calls[id].request.requestId == id)
    && (forall id :: id in s.calls && CallKey(s.calls[id]) in s.db.requests ==> AnswerVouched(s, s.calls[id]))
    && (forall k :: k in s.db.requests && k.scope.RpcScope? ==> k.id in s.calls)
  }

  ghost predicate RepliesBacked(s: System) {
    forall r :: r in s.replies ==>
      r.id in s.calls
      && (r.result.Ok? ==>
            CallKey(s.calls[r.id]) in s.db.requests
            && s.db.requests[CallKey(s.calls[r.id])].response == Some(r.result.response))
  }

  /** A worker's idea of its lease never reaches further than the lease does. */
  ghost predicate HoldingBacked(s: System, a: AttemptId)
    requires a in s.holdings
  {
    var h := s.holdings[a];
    && a in s.db.attempts
    && var row := s.db.attempts[a];
    && row.worker == h.worker && row.job == h.job && row.number == h.number
    && h.deadline <= row.leaseExpiresAt + Skew(s, h.worker) - 500
  }

  /** The call reports the end of attempt `a`, whose row is `row`, as the holder of its lease would. */
  predicate ReportOn(c: Call, a: AttemptId, row: Attempt, session: SessionId) {
    && c.call in {CompleteAttempt, FailAttempt} && NamedAttempt(c.request.attempt) == a
    && c.request.worker == row.worker && c.request.token == row.token.text && c.request.session == session
  }

  ghost predicate ReportAmong(calls: map<RequestId, Call>, a: AttemptId, row: Attempt, session: SessionId) {
    exists id :: id in calls && ReportOn(calls[id], a, row, session)
  }

  /** The worker that holds the lease of attempt a has itself sent a report of its end. */
  ghost predicate Reported(s: System, a: AttemptId) {
    && a in s.db.attempts && s.db.attempts[a].worker in s.db.workers
    && ReportAmong(s.calls, a, s.db.attempts[a], s.db.workers[s.db.attempts[a].worker].session)
  }

  /** Attempts expire only after their lease has, and end otherwise only by report or cancellation. */
  ghost predicate EndedForCause(s: System, a: AttemptId)
    requires a in s.db.attempts
  {
    && (s.db.attempts[a].state == EXPIRED ==> s.db.attempts[a].leaseExpiresAt <= s.now)
    && (s.db.attempts[a].state in {SUCCEEDED, FAILED} ==> Reported(s, a))
  }

  ghost predicate FleetInv(s: System) {
    && Inv(s.db)
    && CallsVouched(s)
    && RepliesBacked(s)
    && (forall a :: a in s.holdings ==> HoldingBacked(s, a))
    && (forall a :: a in s.db.attempts ==> EndedForCause(s, a))
  }

  /** The end-to-end guarantee: while a worker believes it holds the lease of an attempt and has
      not itself reported its end, whatever others may have sent in its name, the lease is good for another half second, the attempt is still the
      last of its job, and no other worker has reason to believe it holds that job. */
  lemma AliveIsExclusive(s: System, a: AttemptId)
    requires FleetInv(s) && a in s.holdings && Alive(s, a) && !Reported(s, a)
    ensures a in s.db.attempts && s.now + 500 < s.db.attempts[a].leaseExpiresAt
    ensures s.db.attempts[a].state in {LEASED, RUNNING, CANCELLED}
    ensures forall b :: b in s.db.attempts && s.db.attempts[b].job == s.db.attempts[a].job && b != a ==>
              s.db.attempts[b].number < s.db.attempts[a].number
    ensures forall b :: b in s.holdings && s.holdings[b].job == s.holdings[a].job && b != a ==>
              !Alive(s, b) || Reported(s, b)
  {
    assert HoldingBacked(s, a);
    assert EndedForCause(s, a);
    assert AttemptOk(s.db.jobs, s.db.attempts, s.db.workers, a);
    AliveIsTop(s, a);
    forall b | b in s.db.attempts && s.db.attempts[b].job == s.db.attempts[a].job && b != a
      ensures s.db.attempts[b].number < s.db.attempts[a].number
    {
      AtMostTop(s.db.attempts, b);
      assert !SameSlot(s.db.attempts, a, b);
    }
    forall b | b in s.holdings && s.holdings[b].job == s.holdings[a].job && b != a
      ensures !Alive(s, b) || Reported(s, b)
    {
      assert HoldingBacked(s, b);
      if Alive(s, b) && !Reported(s, b) { AliveIsTop(s, b); }
    }
  }

  lemma AliveIsTop(s: System, a: AttemptId)
    requires FleetInv(s) && a in s.holdings && Alive(s, a) && !Reported(s, a)
    ensures a in s.db.attempts && s.db.attempts[a].number == Top(s.db.attempts, s.db.attempts[a].job)
    ensures s.now + 500 < s.db.attempts[a].leaseExpiresAt
  {
    assert HoldingBacked(s, a);
    assert EndedForCause(s, a);
    assert AttemptOk(s.db.jobs, s.db.attempts, s.db.workers, a);
  }

  // ------------------------------------------------------------------ the server's answers are true

  lemma LeaseAnswer(db: Db, r: Request, met: Circumstances)
    requires CallBody(db, LeaseJob, r, met).Done?
    ensures var body := CallBody(db, LeaseJob, r, met);
            !body.response.Renewed? &&
            (body.response.Leased? ==>
               var l := body.response.lease;
               l.attempt in body.db.attempts
               && body.db.attempts[l.attempt].worker == r.worker && body.db.attempts[l.attempt].job == l.job
               && body.db.attempts[l.attempt].number == l.number
               && body.db.attempts[l.attempt].leaseExpiresAt == l.leaseExpiresAt && l.serverTime == met.t2)
  {
  }

  lemma RenewAnswer(db: Db, r: Request, met: Circumstances)
    requires CallBody(db, Heartbeat, r, met).Done?
    ensures var body := CallBody(db, Heartbeat, r, met);
            !body.response.Leased? &&
            (body.response.Renewed? ==>
               var a := NamedAttempt(r.attempt);
               a in body.db.attempts && body.db.attempts[a].worker == r.worker
               && body.db.attempts[a].leaseExpiresAt == body.response.leaseExpiresAt
               && body.response.serverTime == met.t3)
  {
  }

  lemma OtherAnswer(db: Db, call: Method, r: Request, met: Circumstances)
    requires call != LeaseJob && call != Heartbeat && CallBody(db, call, r, met).Done?
    ensures !CallBody(db, call, r, met).response.Leased? && !CallBody(db, call, r, met).response.Renewed?
  {
  }

  lemma AnswerIsTrue(s: System, call: Call, met: Circumstances, after: Db)
    requires CallBody(s.db, call.call, call.request, met).Done?
    requires after.attempts == CallBody(s.db, call.call, call.request, met).db.attempts
    requires call.started - Skew(s, call.request.worker) <= met.t2 <= met.t3
    ensures Vouched(s.(db := after), call, CallBody(s.db, call.call, call.request, met).response)
  {
    if call.call == LeaseJob { LeaseAnswer(s.db, call.request, met); }
    else if call.call == Heartbeat { RenewAnswer(s.db, call.request, met); }
    else { OtherAnswer(s.db, call.call, call.request, met); }
  }

  lemma VouchedEvolves(s: System, after: Db, call: Call, response: Response)
    requires Vouched(s, call, response) && AttemptsEvolve(s.db.attempts, after.attempts)
    ensures Vouched(s.(db := after), call, response)
  {
  }

  lemma HoldingEvolves(s: System, after: Db, a: AttemptId)
    requires a in s.holdings && HoldingBacked(s, a) && AttemptsEvolve(s.db.attempts, after.attempts)
    ensures HoldingBacked(s.(db := after), a)
  {
  }

  // ------------------------------------------------------------------ every event keeps the invariant

  /** The command is one the server can execute now: of a call that was issued, or its own. */
  ghost predicate Served(s: System, c: Command) {
    && (c.Rpc? ==> exists id :: id in s.calls && s.calls[id].call == c.call && s.calls[id].request == c.request)
    && (c.Reap? ==> forall slot :: slot in c.scan ==> slot.at <= s.now)
  }

  lemma ReportedEvolves(s: System, after: Db, a: AttemptId)
    requires Reported(s, a) && AttemptsEvolve(s.db.attempts, after.attempts) && WorkersEvolve(s.db.workers, after.workers)
    ensures Reported(s.(db := after), a)
  {
    var row := s.db.attempts[a];
    assert AttemptEvolves(row, after.attempts[a]) && WorkerEvolves(s.db.workers[row.worker], after.workers[row.worker]);
    var id :| id in s.calls && ReportOn(s.calls[id], a, row, s.db.workers[row.worker].session);
    assert ReportOn(s.calls[id], a, after.attempts[a], after.workers[row.worker].session);
  }

  /** A report that ended an attempt was its holder's own. */
  lemma CausedByReport(s: System, c: Command, a: AttemptId, now: Attempt)
    requires a in s.db.attempts && s.db.attempts[a].worker in s.db.workers && Served(s, c)
    requires Caused(c, s.db.workers[s.db.attempts[a].worker].session, a, s.db.attempts[a], now)
    requires now.state in {SUCCEEDED, FAILED}
    ensures Reported(s, a)
  {
    var id :| id in s.calls && s.calls[id].call == c.call && s.calls[id].request == c.request;
    var row := s.db.attempts[a];
    assert ReportOn(s.calls[id], a, row, s.db.workers[row.worker].session);
  }

  lemma AccountedEnds(s: System, c: Command, after: Db, a: AttemptId)
    requires a in s.db.attempts && EndedForCause(s, a) && Accounted(s.db, c, after, a) && Served(s, c)
    requires AttemptsEvolve(s.db.attempts, after.attempts) && WorkersEvolve(s.db.workers, after.workers)
    ensures EndedForCause(s.(db := after), a)
  {
    if after.attempts[a].state in {SUCCEEDED, FAILED} {
      if after.attempts[a] != s.db.attempts[a] { CausedByReport(s, c, a, after.attempts[a]); }
      ReportedEvolves(s, after, a);
    }
  }

  /** Whatever command commits, attempts end for cause. */
  lemma CommandEndsForCause(s: System, c: Command)
    requires FleetInv(s) && Legal(s.db, c) && Served(s, c)
    ensures var after := Apply(s.db, c).0; forall a :: a in after.attempts ==> EndedForCause(s.(db := after), a)
  {
    var after := Apply(s.db, c).0;
    StepKeeps(s.db, c);
    StepOnlyLeases(s.db, c);
    forall a | a in after.attempts ensures EndedForCause(s.(db := after), a) {
      if a in s.db.attempts {
        assert EndedForCause(s, a);
        StepAccounts(s.db, c, a);
        AccountedEnds(s, c, after, a);
      }
    }
  }

  lemma RequestsAfterCall(db: Db, c: Command)
    requires c.Rpc? && Inv(db) && Legal(db, c)
    ensures var (after, result) := Apply(db, c);
            var key := RpcKey(c.call, c.request);
            && (forall k :: k != key ==> (k in after.requests <==> k in db.requests)
                                         && (k in db.requests ==> after.requests[k] == db.requests[k]))
            && (key in db.requests ==> after == db)
            && (result.Ok? ==> key in after.requests && after.requests[key].response == Some(result.response))
            && (key in after.requests && key !in db.requests ==>
                  var body := CallBody(db, c.call, c.request, c.met);
                  body.Done? && after.attempts == body.db.attempts && after.requests[key].response == Some(body.response))
  {
    var m := CallMove(db, c.call, c.request, c.met);
    MutateRequests(db, RpcKey(c.call, c.request), RpcPayload(c.request), CallBody(db, c.call, c.request, c.met));
  }

  lemma MutateRequests(db: Db, key: Key, payload: Payload, body: Outcome)
    requires Answered(db.requests) && (body.Done? ==> body.db.requests == db.requests)
    ensures var (after, result) := Mutate(db, key, payload, body);
            && (forall k :: k != key ==> (k in after.requests <==> k in db.requests)
                                         && (k in db.requests ==> after.requests[k] == db.requests[k]))
            && (key in db.requests ==> after == db)
            && (result.Ok? ==> key in after.requests && after.requests[key].response == Some(result.response))
            && (key in after.requests && key !in db.requests ==>
                  body.Done? && after.attempts == body.db.attempts && after.requests[key].response == Some(body.response))
  {
  }

  /** Between the two states at most the request `key` was answered, with what `body` says. */
  ghost predicate OneMoreAnswer(db: Db, after: Db, key: Key, body: Outcome) {
    && (forall k :: k != key ==> (k in after.requests <==> k in db.requests))
    && (key in after.requests && key !in db.requests ==>
          body.Done? && after.attempts == body.db.attempts && after.requests[key].response == Some(body.response))
  }

  lemma ServedAnswers(s: System, t: System, id: RequestId, met: Circumstances)
    requires CallsVouched(s) && Answered(s.db.requests) && Evolves(s.db, t.db) && id in s.calls
    requires t == s.(db := t.db, replies := t.replies)
    requires s.calls[id].started - Skew(s, s.calls[id].request.worker) <= met.t2 <= met.t3
    requires OneMoreAnswer(s.db, t.db, CallKey(s.calls[id]), CallBody(s.db, s.calls[id].call, s.calls[id].request, met))
    ensures CallsVouched(t)
  {
    forall i | i in t.calls && CallKey(t.calls[i]) in t.db.requests ensures AnswerVouched(t, t.calls[i]) {
      if CallKey(s.calls[i]) in s.db.requests {
        assert AnswerVouched(s, s.calls[i]);
        OldAnswerVouched(s, t.db, s.calls[i]);
      } else {
        assert i == id;
        AnswerIsTrue(s, s.calls[id], met, t.db);
      }
    }
  }

  lemma ServeKeepsVouched(s: System, id: RequestId, met: Circumstances)
    requires FleetInv(s) && Possible(s, Serve(id, met))
    ensures CallsVouched(Step(s, Serve(id, met)))
  {
    var c := Rpc(s.calls[id].call, s.calls[id].request, met);
    StepKeeps(s.db, c);
    RequestsAfterCall(s.db, c);
    ServedAnswers(s, Step(s, Serve(id, met)), id, met);
  }

  lemma OldAnswerVouched(s: System, after: Db, call: Call)
    requires CallKey(call) in s.db.requests && AnswerVouched(s, call) && Evolves(s.db, after) && Answered(s.db.requests)
    ensures CallKey(call) in after.requests && AnswerVouched(s.(db := after), call)
  {
    var key := CallKey(call);
    assert after.requests[key] == s.db.requests[key];
    VouchedEvolves(s, after, call, after.requests[key].response.value);
  }

  lemma ServeKeepsReplies(s: System, id: RequestId, met: Circumstances)
    requires FleetInv(s) && Possible(s, Serve(id, met))
    ensures RepliesBacked(Step(s, Serve(id, met)))
  {
    var c := Rpc(s.calls[id].call, s.calls[id].request, met);
    var after := Apply(s.db, c).0;
    StepKeeps(s.db, c);
    RequestsAfterCall(s.db, c);
    forall r | r in s.replies && r.result.Ok?
      ensures CallKey(s.calls[r.id]) in after.requests
      ensures after.requests[CallKey(s.calls[r.id])].response == Some(r.result.response)
    {
      assert after.requests[CallKey(s.calls[r.id])] == s.db.requests[CallKey(s.calls[r.id])];
    }
  }

  lemma ServeKeeps(s: System, id: RequestId, met: Circumstances)
    requires FleetInv(s) && Possible(s, Serve(id, met))
    ensures FleetInv(Step(s, Serve(id, met)))
  {
    var c := Rpc(s.calls[id].call, s.calls[id].request, met);
    StepKeeps(s.db, c);
    ServeKeepsVouched(s, id, met);
    ServeKeepsReplies(s, id, met);
    CommandEndsForCause(s, c);
    HoldingsEvolve(s, Apply(s.db, c).0);
    SameBackings(s.(db := Apply(s.db, c).0), Step(s, Serve(id, met)));
  }

  lemma HoldingsEvolve(s: System, after: Db)
    requires FleetInv(s) && AttemptsEvolve(s.db.attempts, after.attempts)
    ensures forall a :: a in s.holdings ==> HoldingBacked(s.(db := after), a)
  {
    forall a | a in s.holdings ensures HoldingBacked(s.(db := after), a) {
      assert HoldingBacked(s, a);
      HoldingEvolves(s, after, a);
    }
  }

  lemma SameBackings(s: System, t: System)
    requires t == s.(replies := t.replies)
    requires forall a :: a in s.holdings ==> HoldingBacked(s, a)
    requires forall a :: a in s.db.attempts ==> EndedForCause(s, a)
    ensures forall a :: a in t.holdings ==> HoldingBacked(t, a)
    ensures forall a :: a in t.db.attempts ==> EndedForCause(t, a)
  {
    forall a | a in t.holdings ensures HoldingBacked(t, a) { assert HoldingBacked(s, a); }
    forall a | a in t.db.attempts ensures EndedForCause(t, a) { assert EndedForCause(s, a); }
  }

  lemma {:induction false} ReapKeepsRequests(db: Db, scan: seq<Slot>)
    ensures ReapAll(db, scan).requests == db.requests
    decreases |scan|
  {
    if scan != [] { ReapKeepsRequests(ExpireJob(db, scan[0]), scan[1..]); }
  }

  /** The server's own commands leave the receipts of worker calls alone. */
  lemma RequestsAfterOwn(db: Db, c: Command)
    requires !c.Rpc? && Inv(db) && Legal(db, c)
    ensures var after := Apply(db, c).0;
            forall k: Key :: k.scope.RpcScope? ==>
              (k in after.requests <==> k in db.requests) && (k in db.requests ==> after.requests[k] == db.requests[k])
  {
    match c
    case Submit(batch) => SubmitLeavesAttempts(db, batch, []);
    case Reap(scan) => ReapKeepsRequests(db, scan);
    case Act(action, j, id, at) =>
      var m := ActionMove(db, action, j, id, at);
      MutateRequests(db, Key(ActionScope(action), id), ActionPayload(j), ActionBody(db, action, j, id, at));
  }

  lemma OwnKeeps(s: System, c: Command)
    requires FleetInv(s) && Possible(s, Serverside(c))
    ensures FleetInv(Step(s, Serverside(c)))
  {
    var after := Apply(s.db, c).0;
    StepKeeps(s.db, c);
    RequestsAfterOwn(s.db, c);
    CommandEndsForCause(s, c);
    HoldingsEvolve(s, after);
    forall i | i in s.calls && CallKey(s.calls[i]) in after.requests
      ensures AnswerVouched(s.(db := after), s.calls[i])
    {
      assert AnswerVouched(s, s.calls[i]);
      VouchedEvolves(s, after, s.calls[i], after.requests[CallKey(s.calls[i])].response.value);
    }
  }

  lemma TickKeeps(s: System, ms: nat)
    requires FleetInv(s)
    ensures FleetInv(s.(now := s.now + ms))
  {
    var t := s.(now := s.now + ms);
    forall a | a in t.holdings ensures HoldingBacked(t, a) { assert HoldingBacked(s, a); }
    forall a | a in t.db.attempts ensures EndedForCause(t, a) { assert EndedForCause(s, a); }
    forall i | i in t.calls && CallKey(t.calls[i]) in t.db.requests ensures AnswerVouched(t, t.calls[i]) {
      assert AnswerVouched(s, s.calls[i]);
    }
  }

  lemma MoreReported(s: System, id: RequestId, call: Call, a: AttemptId)
    requires Reported(s, a) && id !in s.calls
    ensures Reported(s.(calls := s.calls[id := call]), a)
  {
    var row := s.db.attempts[a];
    var session := s.db.workers[row.worker].session;
    var i :| i in s.calls && ReportOn(s.calls[i], a, row, session);
    assert ReportOn(s.calls[id := call][i], a, row, session);
  }

  lemma IssueKeeps(s: System, id: RequestId, call: Method, request: Request)
    requires FleetInv(s) && Possible(s, Issue(id, call, request))
    ensures FleetInv(Step(s, Issue(id, call, request)))
  {
    var t := Step(s, Issue(id, call, request));
    forall a | a in t.holdings ensures HoldingBacked(t, a) { assert HoldingBacked(s, a); }
    forall a | a in t.db.attempts ensures EndedForCause(t, a) {
      assert EndedForCause(s, a);
      if Reported(s, a) { MoreReported(s, id, t.calls[id], a); }
    }
    forall i | i in t.calls && CallKey(t.calls[i]) in t.db.requests ensures AnswerVouched(t, t.calls[i]) {
      assert i != id;
      assert AnswerVouched(s, s.calls[i]);
    }
  }

  /** Only what workers believe has changed. */
  lemma BeliefsOnly(s: System, t: System)
    requires FleetInv(s) && t == s.(holdings := t.holdings)
    requires forall a :: a in t.holdings ==> HoldingBacked(t, a)
    ensures FleetInv(t)
  {
    forall a | a in t.db.attempts ensures EndedForCause(t, a) { assert EndedForCause(s, a); }
    forall i | i in t.calls && CallKey(t.calls[i]) in t.db.requests ensures AnswerVouched(t, t.calls[i]) {
      assert AnswerVouched(s, s.calls[i]);
    }
  }

  lemma ReceivedBacked(s: System, reply: Reply, a: AttemptId)
    requires reply.id in s.calls && a in Received(s, reply).holdings && (a in s.holdings ==> HoldingBacked(s, a))
    requires reply.result.Ok? ==> Vouched(s, s.calls[reply.id], reply.result.response)
    ensures HoldingBacked(Received(s, reply), a)
  {
  }

  lemma ReceiveKeeps(s: System, reply: Reply)
    requires FleetInv(s) && reply in s.replies
    ensures FleetInv(Step(s, Receive(reply)))
  {
    if reply.result.Ok? { assert AnswerVouched(s, s.calls[reply.id]); }
    forall a | a in Received(s, reply).holdings ensures HoldingBacked(Received(s, reply), a) {
      assert a in s.holdings ==> HoldingBacked(s, a);
      ReceivedBacked(s, reply, a);
    }
    BeliefsOnly(s, Received(s, reply));
  }

  lemma LoseKeeps(s: System, a: AttemptId)
    requires FleetInv(s) && a in s.holdings
    ensures FleetInv(Step(s, Lose(a)))
  {
    var t := Step(s, Lose(a));
    forall b | b in t.holdings ensures HoldingBacked(t, b) { assert HoldingBacked(s, b); }
    BeliefsOnly(s, t);
  }

  lemma RefuseKeeps(s: System, id: RequestId, e: Error)
    requires FleetInv(s) && id in s.calls
    ensures FleetInv(Step(s, Refuse(id, e)))
  {
    var t := Step(s, Refuse(id, e));
    forall i | i in t.calls && CallKey(t.calls[i]) in t.db.requests ensures AnswerVouched(t, t.calls[i]) {
      assert AnswerVouched(s, s.calls[i]);
    }
    SameBackings(s, t);
  }

  lemma EventKeeps(s: System, e: Event)
    requires FleetInv(s) && Possible(s, e)
    ensures FleetInv(Step(s, e))
  {
    match e
    case Tick(ms) => TickKeeps(s, ms);
    case Issue(id, call, request) => IssueKeeps(s, id, call, request);
    case Serve(id, met) => ServeKeeps(s, id, met);
    case Refuse(id, e) => RefuseKeeps(s, id, e);
    case Serverside(c) => OwnKeeps(s, c);
    case Receive(reply) => ReceiveKeeps(s, reply);
    case Lose(a) => LoseKeeps(s, a);
  }

  // ------------------------------------------------------------------ every run of the fleet

  ghost function AfterAll(s: System, events: seq<Event>): System
    decreases |events|
  {
    if events == [] then s else AfterAll(Step(s, events[0]), events[1..])
  }

  ghost predicate PossibleRun(s: System, events: seq<Event>)
    decreases |events|
  {
    events == [] || (Possible(s, events[0]) && PossibleRun(Step(s, events[0]), events[1..]))
  }

  lemma {:induction false} FleetKeeps(s: System, events: seq<Event>)
    requires FleetInv(s) && PossibleRun(s, events)
    ensures FleetInv(AfterAll(s, events))
    decreases |events|
  {
    if events != [] {
      EventKeeps(s, events[0]);
      FleetKeeps(Step(s, events[0]), events[1..]);
    }
  }

  /** A worker that has just been told of a lease, new or renewed, believes in it exactly until the time
      left to it by the server's clock, less half a second, has passed since it sent the call. */
  lemma BelievesExactly(s: System, reply: Reply, a: AttemptId)
    requires reply.id in s.calls && reply.result.Ok?
    requires var call, response := s.calls[reply.id], reply.result.response;
             || (response.Leased? && response.lease.attempt == a && a !in s.holdings)
             || (response.Renewed? && NamedAttempt(call.request.attempt) == a && a in s.holdings
                 && s.holdings[a].worker == call.request.worker && !s.holdings[a].lost)
    ensures var call, response, t := s.calls[reply.id], reply.result.response, Step(s, Receive(reply));
            var left := if response.Leased? then response.lease.leaseExpiresAt - response.lease.serverTime
                        else response.leaseExpiresAt - response.serverTime;
            && a in t.holdings
            && (Alive(t, a) <==> Local(s, call.request.worker) - call.started < left - 500)
  {
  }

  /** The commands an event has the server execute. */
  function Executed(s: System, e: Event): seq<Command> {
    if e.Serve? && e.id in s.calls then [Rpc(s.calls[e.id].call, s.calls[e.id].request, e.met)]
    else if e.Serverside? then [e.command]
    else []
  }

  ghost function Commands(s: System, events: seq<Event>): seq<Command>
    decreases |events|
  {
    if events == [] then [] else Executed(s, events[0]) + Commands(Step(s, events[0]), events[1..])
  }

  lemma EventIsRun(s: System, e: Event)
    requires FleetInv(s) && Possible(s, e)
    ensures LegalRun(s.db, Executed(s, e)) && Step(s, e).db == Final(s.db, Executed(s, e))
  {
    if e.Serve? { RunOne(s.db, Rpc(s.calls[e.id].call, s.calls[e.id].request, e.met)); }
    else if e.Serverside? { RunOne(s.db, e.command); }
  }

  /** To the server a run of the fleet is a run of its commands. */
  lemma {:induction false} FleetRunIsRun(s: System, events: seq<Event>)
    requires FleetInv(s) && PossibleRun(s, events)
    ensures LegalRun(s.db, Commands(s, events)) && AfterAll(s, events).db == Final(s.db, Commands(s, events))
    decreases |events|
  {
    if events != [] {
      EventIsRun(s, events[0]);
      EventKeeps(s, events[0]);
      FleetRunIsRun(Step(s, events[0]), events[1..]);
      RunConcat(s.db, Executed(s, events[0]), Commands(Step(s, events[0]), events[1..]));
    }
  }

  function Dawn(leaseMs: int, now: int, skew: map<WorkerId, int>): System {
    System(Empty(leaseMs), now, skew, map[], {}, map[])
  }

  /** In every run, over any network and for any clock skews: a worker that is alive on an attempt
      it has not itself reported cannot have been replaced, by another worker or by a later attempt. */
  lemma NeverReplacedWhileAlive(leaseMs: int, now: int, skew: map<WorkerId, int>, events: seq<Event>, a: AttemptId)
    requires 2000 <= leaseMs && PossibleRun(Dawn(leaseMs, now, skew), events)
    requires var s := AfterAll(Dawn(leaseMs, now, skew), events);
             a in s.holdings && Alive(s, a) && !Reported(s, a)
    ensures var s := AfterAll(Dawn(leaseMs, now, skew), events);
            && a in s.db.attempts && s.now + 500 < s.db.attempts[a].leaseExpiresAt
            && s.db.attempts[a].state in {LEASED, RUNNING, CANCELLED}
            && (forall b :: b in s.db.attempts && s.db.attempts[b].job == s.db.attempts[a].job && b != a ==>
                  s.db.attempts[b].number < s.db.attempts[a].number)
            && (forall b :: b in s.holdings && s.holdings[b].job == s.holdings[a].job && b != a ==>
                  !Alive(s, b) || Reported(s, b))
  {
    EmptyInv(leaseMs);
    FleetKeeps(Dawn(leaseMs, now, skew), events);
    AliveIsExclusive(AfterAll(Dawn(leaseMs, now, skew), events), a);
  }
}
