/** Receipts give each request one effect and one answer, however often it is repeated. */
module Receipts {
  import opened Model
  import opened Transactions
  import opened Steps
  import opened Runs

  /** The request key of a command that goes through Mutate. */
  function KeyOf(c: Command): Option<Key> {
    match c
    case Rpc(call, r, _) => if NamedSender(r) then Some(RpcKey(call, r)) else None
    case Act(action, _, id, _) => Some(Key(ActionScope(action), id))
    case _ => None
  }

  function PayloadOf(c: Command): Payload
    requires KeyOf(c).Some?
  {
    if c.Rpc? then RpcPayload(c.request) else ActionPayload(c.job)
  }

  predicate WellNamed(k: Key) {
    1 <= |k.id.text| <= 256
  }

  /** The same request, already answered. */
  predicate Replay(db: Db, c: Command) {
    && KeyOf(c).Some? && WellNamed(KeyOf(c).value)
    && KeyOf(c).value in db.requests
    && db.requests[KeyOf(c).value].payload == PayloadOf(c)
    && db.requests[KeyOf(c).value].response.Some?
  }

  ghost function Results(db: Db, run: seq<Command>): seq<Result>
    decreases |run|
  {
    if run == [] then [] else [Apply(db, run[0]).1] + Results(Apply(db, run[0]).0, run[1..])
  }

  lemma {:induction false} RunConcat(db: Db, u: seq<Command>, v: seq<Command>)
    ensures Final(db, u + v) == Final(Final(db, u), v)
    ensures Results(db, u + v) == Results(db, u) + Results(Final(db, u), v)
    ensures LegalRun(db, u + v) <==> LegalRun(db, u) && LegalRun(Final(db, u), v)
    decreases |u|
  {
    if u == [] {
      assert u + v == v;
    } else {
      assert (u + v)[0] == u[0] && (u + v)[1..] == u[1..] + v;
      RunConcat(Apply(db, u[0]).0, u[1..], v);
    }
  }

  lemma RunOne(db: Db, c: Command)
    ensures Final(db, [c]) == Apply(db, c).0
    ensures Results(db, [c]) == [Apply(db, c).1]
    ensures LegalRun(db, [c]) <==> Legal(db, c)
  {
    assert [c][1..] == [];
  }

  /** A refused command changes nothing, not even the receipts. */
  lemma RefusedChangesNothing(db: Db, c: Command)
    requires Apply(db, c).1.Err?
    ensures Apply(db, c).0 == db
  {
  }

  lemma ReplayAnswers(db: Db, c: Command)
    requires Replay(db, c)
    ensures Apply(db, c) == (db, Ok(db.requests[KeyOf(c).value].response.value))
  {
  }

  /** Inserting or deleting a replay anywhere in a run changes no table and no other answer. */
  lemma ReplayIsInvisible(db: Db, u: seq<Command>, c: Command, v: seq<Command>)
    requires Replay(Final(db, u), c)
    ensures Final(db, u + [c] + v) == Final(db, u + v)
    ensures Results(db, u + [c] + v) ==
            Results(db, u) + [Ok(Final(db, u).requests[KeyOf(c).value].response.value)] + Results(Final(db, u), v)
    ensures Results(db, u + v) == Results(db, u) + Results(Final(db, u), v)
  {
    var mid := Final(db, u);
    ReplayAnswers(mid, c);
    RunOne(mid, c);
    RunConcat(db, u, v);
    RunConcat(db, u, [c]);
    RunConcat(db, u + [c], v);
  }

  /** An answered request leaves its answer behind for good. */
  lemma AnswerIsKept(db: Db, c: Command, run: seq<Command>)
    requires Inv(db) && Legal(db, c) && KeyOf(c).Some? && Apply(db, c).1.Ok?
    requires LegalRun(Apply(db, c).0, run)
    ensures var after := Final(Apply(db, c).0, run);
            KeyOf(c).value in after.requests
            && after.requests[KeyOf(c).value] == Receipt(PayloadOf(c), Some(Apply(db, c).1.response))
  {
    StepKeeps(db, c);
    RunKeeps(Apply(db, c).0, run);
    assert KeyOf(c).value in Apply(db, c).0.requests;
  }

  lemma AnsweredBefore(db: Db, d: Command, receipt: Receipt)
    requires KeyOf(d).Some? && WellNamed(KeyOf(d).value) && receipt.response.Some?
    requires KeyOf(d).value in db.requests && db.requests[KeyOf(d).value] == receipt
    ensures Apply(db, d) ==
            (db, if PayloadOf(d) == receipt.payload then Ok(receipt.response.value) else Err(Conflict))
  {
  }

  lemma AnsweredIsWellNamed(db: Db, c: Command)
    requires KeyOf(c).Some? && Apply(db, c).1.Ok?
    ensures WellNamed(KeyOf(c).value)
  {
  }

  /** Once a request has been answered, every later command under the same key leaves the tables
      alone: it gets the same answer if it carries the same payload and a conflict otherwise. */
  lemma OneEffectPerRequest(db: Db, u: seq<Command>, c: Command, v: seq<Command>, d: Command)
    requires Inv(db) && LegalRun(db, u + [c] + v + [d])
    requires KeyOf(c).Some? && KeyOf(d) == KeyOf(c) && Apply(Final(db, u), c).1.Ok?
    ensures Final(db, u + [c] + v + [d]) == Final(db, u + [c] + v)
    ensures Apply(Final(db, u + [c] + v), d).1 ==
            if PayloadOf(d) == PayloadOf(c) then Apply(Final(db, u), c).1 else Err(Conflict)
  {
    var mid := Final(db, u);
    var late := Final(db, u + [c] + v);
    RunConcat(db, u + [c] + v, [d]);
    RunConcat(db, u + [c], v);
    RunConcat(db, u, [c]);
    RunOne(mid, c);
    RunOne(late, d);
    RunKeeps(db, u);
    AnswerIsKept(mid, c, v);
    AnsweredIsWellNamed(mid, c);
    AnsweredBefore(late, d, Receipt(PayloadOf(c), Some(Apply(mid, c).1.response)));
  }

  /** The run without the commands that are replays where they stand. */
  ghost function Strip(db: Db, run: seq<Command>): seq<Command>
    decreases |run|
  {
    if run == [] then []
    else (if Replay(db, run[0]) then [] else [run[0]]) + Strip(Apply(db, run[0]).0, run[1..])
  }

  /** The answers of a run without those of its replays. */
  ghost function NewResults(db: Db, run: seq<Command>): seq<Result>
    decreases |run|
  {
    if run == [] then []
    else (if Replay(db, run[0]) then [] else [Apply(db, run[0]).1]) + NewResults(Apply(db, run[0]).0, run[1..])
  }

  /** All replays of a run can be dropped at once: the tables are the same in the end, and every
      other command gets the answer it got. */
  lemma {:induction false} StripSame(db: Db, run: seq<Command>)
    ensures Final(db, Strip(db, run)) == Final(db, run)
    ensures Results(db, Strip(db, run)) == NewResults(db, run)
    decreases |run|
  {
    if run != [] {
      var next := Apply(db, run[0]).0;
      StripSame(next, run[1..]);
      if Replay(db, run[0]) {
        ReplayAnswers(db, run[0]);
        assert Strip(db, run) == Strip(next, run[1..]);
      } else {
        RunOne(db, run[0]);
        RunConcat(db, [run[0]], Strip(next, run[1..]));
      }
    }
  }
}
