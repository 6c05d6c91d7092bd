/** The worker's side of a call: one request, sent again until it is answered or time is up. */
module Client {
  import opened Model
  import opened Transactions
  import opened Steps
  import opened Runs
  import opened Receipts
  import opened Fleet

  datatype Code = Unavailable | DeadlineExceeded | OtherCode(name: string)

  /** What came back from one send, and when by the local clock: the server's result, or no answer. */
  datatype Try = Answer(result: Result, at: int) | NoAnswer(code: Code, at: int)

  datatype Called = Returned(response: Response, deadline: Option<int>) | Raised(last: Try)

  /** The pause after send i: a tenth of a second, doubling up to a second. */
  function Delay(i: nat): nat {
    if i == 0 then 100 else Min(2 * Delay(i - 1), 1000)
  }

  /** All the pauses before send n. */
  function Paused(n: nat): nat {
    if n == 0 then 0 else Paused(n - 1) + Delay(n - 1)
  }

  /** Send i came to nothing, but another may do better in time. */
  predicate GoesOn(t: Try, i: nat, end: int) {
    t.NoAnswer? && (t.code == Unavailable || t.code == DeadlineExceeded) && t.at + Delay(i) < end
  }

  function DeadlineOf(started: int, response: Response): Option<int> {
    match response
    case Leased(l) => Some(LocalDeadline(started, l.leaseExpiresAt, l.serverTime))
    case Renewed(until, serverTime) => Some(LocalDeadline(started, until, serverTime))
    case _ => None
  }

  function Conclusion(started: int, t: Try): Called {
    if t.Answer? && t.result.Ok? then Returned(t.result.response, DeadlineOf(started, t.result.response)) else Raised(t)
  }

  /** Sleeping takes at least as long as asked. */
  ghost predicate TimePasses(started: int, tries: nat -> Try) {
    started <= tries(0).at && forall i: nat :: tries(i).at + Delay(i) <= tries(i + 1).at
  }

  /** The call was sent, at the given local time, and is known to the fleet. */
  predicate Issued(s: System, call: Method, request: Request, started: int) {
    && request.requestId in s.calls
    && s.calls[request.requestId].call == call && s.calls[request.requestId].request == request
    && s.calls[request.requestId].started == started
  }

  lemma ReplyIsReceipt(s: System, call: Method, request: Request, started: int, result: Result)
    requires FleetInv(s) && Issued(s, call, request, started) && result.Ok? && Reply(request.requestId, result) in s.replies
    ensures RpcKey(call, request) in s.db.requests
    ensures s.db.requests[RpcKey(call, request)].response == Some(result.response)
  {
  }

  class Rpc {
    const worker: WorkerId
    const session: SessionId

    constructor (worker: WorkerId, session: SessionId)
      ensures this.worker == worker && this.session == session
    {
      this.worker, this.session := worker, session;
    }

    /** The send that ends the call is the first that need not or must not be followed by another;
        all sends carry the same request, and the deadline counts from before the first of them. If
        the answers are those of the fleet `s`, what is returned is the response in the receipt. */
    method Call(call: Method, request: Request, started: int, timeout: nat, tries: nat -> Try, ghost s: System)
      returns (outcome: Called, sent: seq<Request>)
      requires TimePasses(started, tries)
      requires FleetInv(s) && Issued(s, call, request.(worker := worker, session := session), started)
      requires forall i: nat :: tries(i).Answer? && tries(i).result.Ok? ==> Reply(request.requestId, tries(i).result) in s.replies
      ensures 1 <= |sent| && forall k :: 0 <= k < |sent| ==> sent[k] == request.(worker := worker, session := session)
      ensures forall k: nat :: k < |sent| - 1 ==> GoesOn(tries(k), k, started + timeout)
      ensures !GoesOn(tries(|sent| - 1), |sent| - 1, started + timeout)
      ensures var last := tries(|sent| - 1);
              if !(last.Answer? && last.result.Ok?) then outcome == Raised(last)
              else && outcome.Returned? && outcome.response == last.result.response
                   && outcome.deadline == match last.result.response
                                          case Leased(l) => Some(started + (l.leaseExpiresAt - l.serverTime) - 500)
                                          case Renewed(until, serverTime) => Some(started + (until - serverTime) - 500)
                                          case _ => None
      ensures var key := RpcKey(call, request.(worker := worker, session := session));
              outcome.Returned? ==> key in s.db.requests && s.db.requests[key].response == Some(outcome.response)
    {
      var req := request.(worker := worker, session := session);
      var end := started + timeout;
      var delay := 100;
      sent := [req];
      while true
        invariant 1 <= |sent| && delay == Delay(|sent| - 1)
        invariant forall k :: 0 <= k < |sent| ==> sent[k] == req
        invariant forall k: nat :: k < |sent| - 1 ==> GoesOn(tries(k), k, end)
        invariant started <= tries(|sent| - 1).at
        decreases end - tries(|sent| - 1).at
      {
        var got := tries(|sent| - 1);
        if got.Answer? {
          if got.result.Ok? { ReplyIsReceipt(s, call, req, started, got.result); }
          return Conclusion(started, got), sent;
        }
        var again := got.code == Unavailable || got.code == DeadlineExceeded;
        if !again || got.at + delay >= end { return Raised(got), sent; }
        DelayPositive(|sent| - 1);
        assert tries(|sent| - 1).at + Delay(|sent| - 1) <= tries(|sent|).at;
        sent := sent + [req];
        delay := Min(2 * delay, 1000);
      }
    }
  }

  /** The pauses, written out. */
  lemma {:induction false} DelayIs(i: nat)
    ensures Delay(i) == if i < 4 then [100, 200, 400, 800][i] else 1000
  {
    if i > 0 { DelayIs(i - 1); }
  }

  lemma {:induction false} DelayPositive(i: nat)
    ensures 100 <= Delay(i) <= 1000
  {
    if i > 0 { DelayPositive(i - 1); }
  }

  lemma {:induction false} PausedBy(started: int, tries: nat -> Try, n: nat)
    requires TimePasses(started, tries)
    ensures started + Paused(n) <= tries(n).at
  {
    if n > 0 {
      PausedBy(started, tries, n - 1);
      assert tries(n - 1).at + Delay(n - 1) <= tries(n - 1 + 1).at;
    }
  }

  lemma {:induction false} PausedIs(n: nat)
    ensures n >= 4 ==> Delay(n) == 1000 && Paused(n) == 1000 * n - 2500
  {
    if n > 4 {
      PausedIs(n - 1);
    } else if n == 4 {
      assert Delay(1) == 200 && Delay(2) == 400 && Delay(3) == 800;
      assert Paused(1) == 100 && Paused(2) == 300 && Paused(3) == 700;
    }
  }

  /** A call with a timeout of t milliseconds sends at most five times and once more per second of t. */
  lemma FewSends(started: int, timeout: nat, tries: nat -> Try, n: nat)
    requires TimePasses(started, tries)
    requires forall k: nat :: k < n ==> GoesOn(tries(k), k, started + timeout)
    ensures n > 0 ==> Paused(n) < timeout
    ensures n > 4 ==> 1000 * n < timeout + 2500
  {
    if n > 0 {
      PausedBy(started, tries, n - 1);
      assert GoesOn(tries(n - 1), n - 1, started + timeout);
      PausedIs(n);
    }
  }

  // ------------------------------------------------------------------ what the sends do at the server

  /** How often a run executes the request with this key, as opposed to answering it again. */
  ghost function Executions(db: Db, run: seq<Command>, key: Key): nat
    decreases |run|
  {
    if run == [] then 0
    else (if key !in db.requests && key in Apply(db, run[0]).0.requests then 1 else 0)
         + Executions(Apply(db, run[0]).0, run[1..], key)
  }

  /** Whatever else happens at the server, a request takes effect at most once. */
  lemma {:induction false} AtMostOneExecution(db: Db, run: seq<Command>, key: Key)
    requires Inv(db) && LegalRun(db, run)
    ensures Executions(db, run, key) == if key !in db.requests && key in Final(db, run).requests then 1 else 0
    ensures key in db.requests ==> key in Final(db, run).requests && Final(db, run).requests[key] == db.requests[key]
    decreases |run|
  {
    if run != [] {
      StepKeeps(db, run[0]);
      AtMostOneExecution(Apply(db, run[0]).0, run[1..], key);
    }
  }

  /** A copy of the call, as the server gets it. */
  predicate Copy(c: Command, call: Method, request: Request) {
    c.Rpc? && c.call == call && c.request == request
  }

  /** Any two copies of a call that were answered got the same answer, and so give the same local
      deadline; after the first of them the others changed nothing. */
  lemma CopiesAgree(db: Db, u: seq<Command>, c: Command, v: seq<Command>, d: Command, call: Method, request: Request)
    requires Inv(db) && LegalRun(db, u + [c] + v + [d]) && NamedSender(request)
    requires Copy(c, call, request) && Copy(d, call, request) && Apply(Final(db, u), c).1.Ok?
    ensures Final(db, u + [c] + v + [d]) == Final(db, u + [c] + v)
    ensures Apply(Final(db, u + [c] + v), d).1 == Apply(Final(db, u), c).1
  {
    OneEffectPerRequest(db, u, c, v, d);
  }

  /** A call that was answered was executed exactly once if it was new, and what it returned is the
      response of that execution, which the receipt keeps. */
  lemma CallReturnsItsExecution(db: Db, u: seq<Command>, c: Command, v: seq<Command>)
    requires Inv(db) && LegalRun(db, u + [c] + v) && KeyOf(c).Some? && KeyOf(c).value !in db.requests
    requires Apply(Final(db, u), c).1.Ok?
    ensures var later := Final(db, u + [c] + v);
            && Executions(db, u + [c] + v, KeyOf(c).value) == 1
            && KeyOf(c).value in later.requests
            && later.requests[KeyOf(c).value] == Receipt(PayloadOf(c), Some(Apply(Final(db, u), c).1.response))
  {
    RunConcat(db, u + [c], v);
    RunConcat(db, u, [c]);
    RunOne(Final(db, u), c);
    RunKeeps(db, u);
    AnswerIsKept(Final(db, u), c, v);
    AtMostOneExecution(db, u + [c] + v, KeyOf(c).value);
  }

  /** In every run of the fleet: a call that got an answer was executed exactly once, and the answer,
      whichever of its sends it came back to, is the response of that execution. */
  lemma AnswerOfOneExecution(leaseMs: int, now: int, skew: map<WorkerId, int>, events: seq<Fleet.Event>, id: RequestId, response: Response)
    requires 2000 <= leaseMs && PossibleRun(Dawn(leaseMs, now, skew), events)
    requires Reply(id, Ok(response)) in AfterAll(Dawn(leaseMs, now, skew), events).replies
    ensures var s := AfterAll(Dawn(leaseMs, now, skew), events);
            && id in s.calls && CallKey(s.calls[id]) in s.db.requests
            && Executions(Empty(leaseMs), Commands(Dawn(leaseMs, now, skew), events), CallKey(s.calls[id])) == 1
            && s.db.requests[CallKey(s.calls[id])].response == Some(response)
  {
    var dawn := Dawn(leaseMs, now, skew);
    EmptyInv(leaseMs);
    FleetKeeps(dawn, events);
    FleetRunIsRun(dawn, events);
    var s := AfterAll(dawn, events);
    assert id in s.calls;
    AtMostOneExecution(Empty(leaseMs), Commands(dawn, events), CallKey(s.calls[id]));
  }
}
