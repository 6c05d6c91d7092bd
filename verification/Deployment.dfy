/** The whole system: workers, network and clocks around the store run statement by statement. */
module Deployment {
  import opened Model
  import opened Transactions
  import opened Steps
  import opened Runs
  import opened Interleaving
  import opened Refinement
  import opened Worlds
  import opened Fleet

  datatype Site = Site(
    world: World,
    skew: map<WorkerId, int>,
    calls: map<RequestId, Call>,
    replies: set<Reply>,
    holdings: map<AttemptId, Holding>)

  /** What the fleet sees of it: the committed tables. */
  function Seen(d: Site): System {
    System(d.world.db, d.world.now, d.skew, d.calls, d.replies, d.holdings)
  }

  /** Something the workers or the network do, or one micro-step of the server. */
  datatype Happening =
    | Issued(id: RequestId, call: Method, request: Request)
    | Server(m: Micro)
    | Delivered(reply: Reply)
    | GivenUp(a: AttemptId)

  /** A transaction on behalf of a worker is begun for a call that was sent. */
  predicate Sent(calls: map<RequestId, Call>, i: Intent) {
    i.Calling? ==>
      && i.request.requestId in calls
      && calls[i.request.requestId].call == i.call && calls[i.request.requestId].request == i.request
  }

  ghost predicate CanHappen(d: Site, h: Happening) {
    match h
    case Issued(id, call, request) => id !in d.calls && request.requestId == id
    case Server(m) => m.Begin? ==> Sent(d.calls, m.intent)
    case Delivered(reply) => reply in d.replies
    case GivenUp(a) => a in d.holdings
  }

  /** The answer a micro-step sends: when a worker's transaction ends. */
  ghost function Answers(w: World, m: Micro): set<Reply> {
    if m.Run? && m.t in w.txs && TurnIn(w, m.t, m.d).Ends? then AnswerOf(w.txs[m.t], TurnIn(w, m.t, m.d)) else {}
  }

  ghost function Happen(d: Site, h: Happening): Site {
    match h
    case Issued(id, call, request) =>
      d.(calls := d.calls[id := Call(call, request, Local(Seen(d), request.worker))])
    case Server(m) => d.(world := Next(d.world, m), replies := d.replies + Answers(d.world, m))
    case Delivered(reply) =>
      if reply.id in d.calls then d.(holdings := Received(Seen(d), reply).holdings) else d
    case GivenUp(a) => if a in d.holdings then d.(holdings := d.holdings[a := d.holdings[a].(lost := true)]) else d
  }

  /** A worker's transaction was begun after its call was first sent. */
  predicate BegunAfterSend(d: Site, tx: Tx) {
    tx.intent.Calling? ==>
      && Sent(d.calls, tx.intent)
      && var call := d.calls[tx.intent.request.requestId];
      call.started - Skew(Seen(d), call.request.worker) <= tx.begun
  }

  /** Every transaction under way belongs to something sent before it, and nothing was sent later than now. */
  ghost predicate Tracked(d: Site) {
    && (forall t :: t in d.world.txs ==> BegunAfterSend(d, d.world.txs[t]))
    && (forall id :: id in d.calls ==> d.calls[id].started <= Local(Seen(d), d.calls[id].request.worker))
  }

  ghost predicate SiteInv(d: Site) {
    WorldInv(d.world) && FleetInv(Seen(d)) && Tracked(d)
  }

  // ------------------------------------------------------------------ which event of the fleet it is

  /** The answer at the end of a transaction, if it was a worker's. */
  function AnswerOf(tx: Tx, turn: Turn): set<Reply>
    requires turn.Ends?
  {
    if tx.intent.Calling? then {Reply(tx.intent.request.requestId, turn.result)} else {}
  }

  /** The end of a transaction as an event of the fleet. */
  function EndEvent(db: Db, tx: Tx, turn: Turn): Fleet.Event
    requires turn.Ends? && OwnCommand(tx.intent, turn.command)
  {
    if !tx.intent.Calling? then Serverside(turn.command)
    else if Raced(db, tx, turn.db, turn.result) then Fleet.Refuse(tx.intent.request.requestId, Internal)
    else Serve(tx.intent.request.requestId, turn.command.met)
  }

  /** What the fleet takes for granted of a command is what the end of its transaction gives. */
  lemma EndAllowed(s: System, tx: Tx, turn: Turn)
    requires turn.Ends? && OwnCommand(tx.intent, turn.command)
    requires if Raced(s.db, tx, turn.db, turn.result) then turn.db == s.db && tx.intent.Calling?
             else Legal(s.db, turn.command) && Timely(turn.command, tx.begun, s.now)
                  && Apply(s.db, turn.command) == (turn.db, turn.result)
    requires tx.intent.Calling? ==>
               && Sent(s.calls, tx.intent)
               && s.calls[tx.intent.request.requestId].started - Skew(s, tx.intent.request.worker) <= tx.begun
    ensures Possible(s, EndEvent(s.db, tx, turn))
    ensures Step(s, EndEvent(s.db, tx, turn)) == s.(db := turn.db, replies := s.replies + AnswerOf(tx, turn))
  {
  }

  lemma EndIsEvent(d: Site, t: nat, x: Draw)
    requires SiteInv(d) && t in d.world.txs && TurnIn(d.world, t, x).Ends?
    ensures var tx, turn := d.world.txs[t], TurnIn(d.world, t, x);
            && OwnCommand(tx.intent, turn.command)
            && Possible(Seen(d), EndEvent(d.world.db, tx, turn))
            && Step(Seen(d), EndEvent(d.world.db, tx, turn))
               == Seen(d).(db := turn.db, replies := d.replies + AnswerOf(tx, turn))
  {
    var tx, turn := d.world.txs[t], TurnIn(d.world, t, x);
    EndsAtomically(d.world, t, x);
    EndsOwnCommand(d.world.db, d.world.now, Busy(d.world.txs, t), tx, x);
    assert BegunAfterSend(d, tx);
    OnlyCallsRace(d.world, t);
    EndAllowed(Seen(d), tx, turn);
  }

  lemma OnlyCallsRace(w: World, t: nat)
    requires WorldInv(w) && t in w.txs
    ensures w.txs[t].phase.Checked? ==> w.txs[t].intent.Calling?
  {
  }

  // ------------------------------------------------------------------ every happening keeps the invariant

  /** The transactions under way are those of before, further on. */
  predicate Continue(txs: map<nat, Tx>, later: map<nat, Tx>) {
    forall t :: t in later ==> t in txs && later[t].intent == txs[t].intent && later[t].begun == txs[t].begun
  }

  lemma ServerTracked(d: Site, w: World, replies: set<Reply>)
    requires Tracked(d) && d.world.now <= w.now && Continue(d.world.txs, w.txs)
    ensures Tracked(d.(world := w, replies := replies))
  {
    var after := d.(world := w, replies := replies);
    forall t | t in w.txs ensures BegunAfterSend(after, w.txs[t]) {
      assert BegunAfterSend(d, d.world.txs[t]);
    }
  }

  lemma EndKeepsSite(d: Site, t: nat, x: Draw)
    requires SiteInv(d) && t in d.world.txs && TurnIn(d.world, t, x).Ends?
    requires WorldInv(World(TurnIn(d.world, t, x).db, d.world.now, d.world.txs - {t}))
    ensures SiteInv(d.(world := World(TurnIn(d.world, t, x).db, d.world.now, d.world.txs - {t}),
                       replies := d.replies + AnswerOf(d.world.txs[t], TurnIn(d.world, t, x))))
  {
    var tx, turn := d.world.txs[t], TurnIn(d.world, t, x);
    EndIsEvent(d, t, x);
    EventKeeps(Seen(d), EndEvent(d.world.db, tx, turn));
    ServerTracked(d, World(turn.db, d.world.now, d.world.txs - {t}), d.replies + AnswerOf(tx, turn));
  }

  lemma GoKeepsSite(d: Site, t: nat, p: Phase)
    requires SiteInv(d) && t in d.world.txs
    requires WorldInv(d.world.(txs := d.world.txs[t := d.world.txs[t].(phase := p)]))
    ensures SiteInv(d.(world := d.world.(txs := d.world.txs[t := d.world.txs[t].(phase := p)])))
  {
    ServerTracked(d, d.world.(txs := d.world.txs[t := d.world.txs[t].(phase := p)]), d.replies);
  }

  lemma RunKeepsSite(d: Site, t: nat, x: Draw)
    requires SiteInv(d) && t in d.world.txs
    ensures SiteInv(Happen(d, Server(Run(t, x))))
  {
    NextKeeps(d.world, Run(t, x));
    var turn := TurnIn(d.world, t, x);
    match turn
    case Ends(_, _, _) => EndKeepsSite(d, t, x);
    case Goes(p) => GoKeepsSite(d, t, p); assert d.replies + {} == d.replies;
    case Waits(_) => assert d.replies + {} == d.replies;
    case Undrawn => assert d.replies + {} == d.replies;
  }

  lemma BeginTracked(d: Site, t: nat, i: Intent)
    requires Tracked(d) && Sent(d.calls, i)
    requires i.Calling? ==> d.calls[i.request.requestId].started <= Local(Seen(d), i.request.worker)
    ensures Tracked(d.(world := d.world.(txs := d.world.txs[t := Tx(i, d.world.now, Opening)])))
  {
    var after := d.(world := d.world.(txs := d.world.txs[t := Tx(i, d.world.now, Opening)]));
    forall u | u in after.world.txs ensures BegunAfterSend(after, after.world.txs[u]) {
      if u != t { assert BegunAfterSend(d, d.world.txs[u]); }
    }
  }

  lemma TickKeepsSite(d: Site, ms: nat)
    requires SiteInv(d)
    ensures SiteInv(d.(world := d.world.(now := d.world.now + ms)))
  {
    Worlds.TickKeeps(d.world, ms);
    Fleet.TickKeeps(Seen(d), ms);
    ServerTracked(d, d.world.(now := d.world.now + ms), d.replies);
  }

  lemma StillKeepsSite(d: Site, w: World)
    requires SiteInv(d) && WorldInv(w) && w == d.world.(txs := w.txs) && Continue(d.world.txs, w.txs)
    ensures SiteInv(d.(world := w))
  {
    ServerTracked(d, w, d.replies);
  }

  lemma BeginKeepsSite(d: Site, t: nat, i: Intent)
    requires SiteInv(d) && Sent(d.calls, i) && t !in d.world.txs && Admissible(i)
    ensures SiteInv(d.(world := d.world.(txs := d.world.txs[t := Tx(i, d.world.now, Opening)])))
  {
    BeginKeeps(d.world, t, i);
    BeginTracked(d, t, i);
  }

  lemma RollbackKeepsSite(d: Site, t: nat)
    requires SiteInv(d)
    ensures SiteInv(d.(world := d.world.(txs := d.world.txs - {t})))
  {
    NextKeeps(d.world, Rollback(t));
    StillKeepsSite(d, d.world.(txs := d.world.txs - {t}));
  }

  lemma TickHappens(d: Site, ms: nat)
    requires SiteInv(d)
    ensures SiteInv(d.(world := Next(d.world, Micro.Tick(ms))))
  {
    TickKeepsSite(d, ms);
  }

  lemma RollbackHappens(d: Site, t: nat)
    requires SiteInv(d)
    ensures SiteInv(d.(world := Next(d.world, Rollback(t))))
  {
    RollbackKeepsSite(d, t);
  }

  lemma BeginHappens(d: Site, t: nat, i: Intent)
    requires SiteInv(d) && Sent(d.calls, i)
    ensures SiteInv(d.(world := Next(d.world, Begin(t, i))))
  {
    if t in d.world.txs || !Admissible(i) {
      assert d.(world := Next(d.world, Begin(t, i))) == d;
    } else {
      BeginKeepsSite(d, t, i);
    }
  }

  lemma ServerKeeps(d: Site, m: Micro)
    requires SiteInv(d) && (m.Begin? ==> Sent(d.calls, m.intent))
    ensures SiteInv(Happen(d, Server(m)))
  {
    if m.Run? && m.t in d.world.txs { RunKeepsSite(d, m.t, m.d); }
    else {
      QuietHappening(d, m);
      if m.Tick? { TickHappens(d, m.ms); }
      if m.Rollback? { RollbackHappens(d, m.t); }
      if m.Begin? { BeginHappens(d, m.t, m.intent); }
    }
  }

  lemma QuietHappening(d: Site, m: Micro)
    requires !(m.Run? && m.t in d.world.txs)
    ensures Happen(d, Server(m)) == if m.Run? then d else d.(world := Next(d.world, m))
  {
    assert d.replies + {} == d.replies;
  }

  lemma IssueTracked(d: Site, id: RequestId, call: Method, request: Request)
    requires Tracked(d) && id !in d.calls
    ensures Tracked(d.(calls := d.calls[id := Call(call, request, Local(Seen(d), request.worker))]))
  {
    var after := d.(calls := d.calls[id := Call(call, request, Local(Seen(d), request.worker))]);
    forall t | t in after.world.txs ensures BegunAfterSend(after, after.world.txs[t]) {
      assert BegunAfterSend(d, d.world.txs[t]);
    }
  }

  lemma BeliefsTracked(d: Site, holdings: map<AttemptId, Holding>)
    requires Tracked(d)
    ensures Tracked(d.(holdings := holdings))
  {
    var after := d.(holdings := holdings);
    forall t | t in after.world.txs ensures BegunAfterSend(after, after.world.txs[t]) {
      assert BegunAfterSend(d, d.world.txs[t]);
    }
  }

  lemma IssueKeepsSite(d: Site, id: RequestId, call: Method, request: Request)
    requires SiteInv(d) && id !in d.calls && request.requestId == id
    ensures SiteInv(d.(calls := d.calls[id := Call(call, request, Local(Seen(d), request.worker))]))
  {
    IssueKeeps(Seen(d), id, call, request);
    IssueTracked(d, id, call, request);
  }

  lemma BeliefsKeepSite(d: Site, t: System)
    requires SiteInv(d) && FleetInv(t) && t == Seen(d).(holdings := t.holdings)
    ensures SiteInv(d.(holdings := t.holdings))
  {
    BeliefsTracked(d, t.holdings);
    assert Seen(d.(holdings := t.holdings)) == t;
  }

  lemma ReceivedOnly(s: System, reply: Reply)
    requires reply.id in s.calls
    ensures Received(s, reply) == s.(holdings := Received(s, reply).holdings)
    ensures Step(s, Receive(reply)) == Received(s, reply)
  {
  }

  lemma ReplyHasCall(s: System, reply: Reply)
    requires FleetInv(s) && reply in s.replies
    ensures reply.id in s.calls
  {
  }

  lemma DeliverKeepsSite(d: Site, reply: Reply, t: System)
    requires SiteInv(d) && reply in d.replies && t == Step(Seen(d), Receive(reply)) && t == Seen(d).(holdings := t.holdings)
    ensures SiteInv(d.(holdings := t.holdings))
  {
    ReceiveKeeps(Seen(d), reply);
    BeliefsKeepSite(d, t);
  }

  lemma GiveUpKeepsSite(d: Site, a: AttemptId)
    requires SiteInv(d) && a in d.holdings
    ensures SiteInv(d.(holdings := d.holdings[a := d.holdings[a].(lost := true)]))
  {
    LoseKeeps(Seen(d), a);
    BeliefsKeepSite(d, Step(Seen(d), Lose(a)));
  }

  lemma HappeningKeeps(d: Site, h: Happening)
    requires SiteInv(d) && CanHappen(d, h)
    ensures SiteInv(Happen(d, h))
  {
    match h
    case Issued(id, call, request) => IssueKeepsSite(d, id, call, request);
    case Server(m) => ServerKeeps(d, m);
    case Delivered(reply) =>
      ReplyHasCall(Seen(d), reply);
      ReceivedOnly(Seen(d), reply);
      DeliverKeepsSite(d, reply, Received(Seen(d), reply));
    case GivenUp(a) => GiveUpKeepsSite(d, a);
  }

  // ------------------------------------------------------------------ every history

  ghost function AfterHistory(d: Site, hs: seq<Happening>): Site
    decreases |hs|
  {
    if hs == [] then d else AfterHistory(Happen(d, hs[0]), hs[1..])
  }

  ghost predicate History(d: Site, hs: seq<Happening>)
    decreases |hs|
  {
    hs == [] || (CanHappen(d, hs[0]) && History(Happen(d, hs[0]), hs[1..]))
  }

  lemma {:induction false} HistoryKeeps(d: Site, hs: seq<Happening>)
    requires SiteInv(d) && History(d, hs)
    ensures SiteInv(AfterHistory(d, hs))
    decreases |hs|
  {
    if hs != [] {
      HappeningKeeps(d, hs[0]);
      HistoryKeeps(Happen(d, hs[0]), hs[1..]);
    }
  }

  function Morning(leaseMs: int, now: int, skew: map<WorkerId, int>): Site {
    Site(World(Empty(leaseMs), now, map[]), skew, map[], {}, map[])
  }

  lemma MorningInv(leaseMs: int, now: int, skew: map<WorkerId, int>)
    requires 2000 <= leaseMs
    ensures SiteInv(Morning(leaseMs, now, skew))
  {
    EmptyInv(leaseMs);
  }

  /** In every history of the whole system, with the store run statement by statement, over any
      network and for any clock skews: a worker that is alive on an attempt it has not itself
      reported cannot have been replaced, by another worker or by a later attempt. */
  lemma NeverReplacedWhileAlive(leaseMs: int, now: int, skew: map<WorkerId, int>, hs: seq<Happening>, a: AttemptId)
    requires 2000 <= leaseMs && History(Morning(leaseMs, now, skew), hs)
    requires var s := Seen(AfterHistory(Morning(leaseMs, now, skew), hs));
             a in s.holdings && Alive(s, a) && !Reported(s, a)
    ensures var s := Seen(AfterHistory(Morning(leaseMs, now, skew), hs));
            && a in s.db.attempts && s.now + 500 < s.db.attempts[a].leaseExpiresAt
            && s.db.attempts[a].state in {LEASED, RUNNING, CANCELLED}
            && (forall b :: b in s.db.attempts && s.db.attempts[b].job == s.db.attempts[a].job && b != a ==>
                  s.db.attempts[b].number < s.db.attempts[a].number)
            && (forall b :: b in s.holdings && s.holdings[b].job == s.holdings[a].job && b != a ==>
                  !Alive(s, b) || Reported(s, b))
  {
    MorningInv(leaseMs, now, skew);
    HistoryKeeps(Morning(leaseMs, now, skew), hs);
    AliveIsExclusive(Seen(AfterHistory(Morning(leaseMs, now, skew), hs)), a);
  }
}
