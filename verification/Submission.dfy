/** Submitting a batch: one job per idempotency key, all or nothing, and nothing twice. */
module Submission {
  import opened Model
  import opened Transactions
  import opened Invariant
  import opened Evolution
  import opened Steps
  import opened Runs

  function KeyOf(e: Entry): string {
    e.definition.idempotencyKey
  }

  /** Nobody else has submitted another definition under the key of `d`. */
  ghost predicate Accepts(jobs: map<JobId, Job>, d: Definition) {
    forall j :: j in jobs && jobs[j].definition.idempotencyKey == d.idempotencyKey ==> jobs[j].definition == d
  }

  /** One key stands for one definition throughout the batch and the jobs already there. */
  ghost predicate Compatible(jobs: map<JobId, Job>, batch: seq<Entry>) {
    && (forall i :: 0 <= i < |batch| ==> Accepts(jobs, batch[i].definition))
    && (forall i, k :: 0 <= i < k < |batch| && KeyOf(batch[i]) == KeyOf(batch[k]) ==>
          batch[i].definition == batch[k].definition)
  }

  ghost predicate FreshIds(jobs: map<JobId, Job>, batch: seq<Entry>) {
    && (forall i :: 0 <= i < |batch| ==> batch[i].id !in jobs)
    && (forall i, k :: 0 <= i < k < |batch| ==> batch[i].id != batch[k].id)
  }

  /** Entry i is the first to bring its key. */
  ghost predicate BringsKey(jobs: map<JobId, Job>, batch: seq<Entry>, i: int)
    requires 0 <= i < |batch|
  {
    !KeyTaken(jobs, KeyOf(batch[i])) && forall k :: 0 <= k < i ==> KeyOf(batch[k]) != KeyOf(batch[i])
  }

  // ------------------------------------------------------------------ one entry

  lemma Inserted(db: Db, e: Entry)
    requires DistinctKeys(db.jobs) && e.id !in db.jobs
    ensures DistinctKeys(InsertJob(db, e).jobs)
    ensures forall key :: KeyTaken(InsertJob(db, e).jobs, key) <==> KeyTaken(db.jobs, key) || key == KeyOf(e)
  {
    var after := InsertJob(db, e).jobs;
    forall i, k | SameKey(after, i, k) ensures i == k {
      if i != e.id && k != e.id { assert SameKey(db.jobs, i, k); }
    }
    InsertTakesKey(db, e);
    forall key | KeyTaken(db.jobs, key) ensures KeyTaken(after, key) {
      var j :| j in db.jobs && db.jobs[j].definition.idempotencyKey == key;
      assert after[j].definition.idempotencyKey == key;
    }
  }

  /** What the read after the insert finds. */
  lemma Owner(db: Db, e: Entry)
    requires DistinctKeys(db.jobs) && e.id !in db.jobs
    ensures var next := InsertJob(db, e).jobs;
            && KeyTaken(next, KeyOf(e))
            && (next[KeyOwner(next, KeyOf(e))].definition == e.definition <==> Accepts(db.jobs, e.definition))
  {
    InsertTakesKey(db, e);
    var next := InsertJob(db, e).jobs;
    var j := KeyOwner(next, KeyOf(e));
    forall i | i in db.jobs && db.jobs[i].definition.idempotencyKey == KeyOf(e) ensures i == j {
      assert KeyTaken(db.jobs, KeyOf(e));
      assert SameKey(db.jobs, i, j);
    }
  }

  lemma CompatibleAll(db: Db, batch: seq<Entry>)
    requires batch != [] && DistinctKeys(db.jobs) && FreshIds(db.jobs, batch) && Accepts(db.jobs, batch[0].definition)
    requires Compatible(InsertJob(db, batch[0]).jobs, batch[1..])
    ensures Compatible(db.jobs, batch)
  {
    var rest, next := batch[1..], InsertJob(db, batch[0]).jobs;
    Owner(db, batch[0]);
    var owner := KeyOwner(next, KeyOf(batch[0]));
    forall i | 0 < i < |batch| ensures Accepts(db.jobs, batch[i].definition) {
      assert Accepts(next, rest[i - 1].definition);
      forall j | j in db.jobs && db.jobs[j].definition.idempotencyKey == KeyOf(batch[i])
        ensures db.jobs[j].definition == batch[i].definition
      {
        assert next[j] == db.jobs[j];
      }
    }
    forall i, k | 0 <= i < k < |batch| && KeyOf(batch[i]) == KeyOf(batch[k])
      ensures batch[i].definition == batch[k].definition
    {
      if i > 0 { assert KeyOf(rest[i - 1]) == KeyOf(rest[k - 1]); }
      else { assert Accepts(next, rest[k - 1].definition) && next[owner].definition == batch[0].definition; }
    }
  }

  lemma CompatibleRest(db: Db, batch: seq<Entry>)
    requires batch != [] && FreshIds(db.jobs, batch) && Compatible(db.jobs, batch)
    ensures Compatible(InsertJob(db, batch[0]).jobs, batch[1..])
  {
    var rest, next := batch[1..], InsertJob(db, batch[0]).jobs;
    forall i | 0 <= i < |rest| ensures Accepts(next, rest[i].definition) {
      assert Accepts(db.jobs, batch[i + 1].definition);
      forall j | j in next && next[j].definition.idempotencyKey == KeyOf(rest[i])
        ensures next[j].definition == rest[i].definition
      {
        if j !in db.jobs { assert KeyOf(batch[0]) == KeyOf(batch[i + 1]); }
      }
    }
    forall i, k | 0 <= i < k < |rest| && KeyOf(rest[i]) == KeyOf(rest[k])
      ensures rest[i].definition == rest[k].definition
    {
      assert KeyOf(batch[i + 1]) == KeyOf(batch[k + 1]);
    }
  }

  // ------------------------------------------------------------------ the whole batch

  /** A batch goes through exactly when no key stands for two definitions; otherwise it conflicts. */
  lemma {:induction false} SubmitGoes(db: Db, batch: seq<Entry>, out: seq<JobId>)
    requires DistinctKeys(db.jobs) && FreshIds(db.jobs, batch)
    ensures SubmitAll(db, batch, out).Done? <==> Compatible(db.jobs, batch)
    ensures SubmitAll(db, batch, out).Refused? ==> SubmitAll(db, batch, out).error == Conflict
    decreases |batch|
  {
    if batch != [] {
      var next := InsertJob(db, batch[0]);
      Inserted(db, batch[0]);
      Owner(db, batch[0]);
      InsertTakesKey(db, batch[0]);
      if Accepts(db.jobs, batch[0].definition) {
        if Compatible(db.jobs, batch) { CompatibleRest(db, batch); }
        if Compatible(next.jobs, batch[1..]) { CompatibleAll(db, batch); }
        SubmitGoes(next, batch[1..], out + [KeyOwner(next.jobs, KeyOf(batch[0]))]);
      }
    }
  }

  /** The row of a submitted entry: its definition, its attempts still to make, and the time it came. */
  function Queued(e: Entry): Job {
    Job(e.definition, QUEUED, e.definition.maxAttempts, e.at, e.at)
  }

  /** The jobs that were there stay as they were, and those that bring a key come in queued. */
  ghost predicate Grown(jobs: map<JobId, Job>, batch: seq<Entry>, after: map<JobId, Job>) {
    && (forall j :: j in jobs ==> j in after && after[j] == jobs[j])
    && (forall i :: 0 <= i < |batch| && BringsKey(jobs, batch, i) ==>
          batch[i].id in after && after[batch[i].id] == Queued(batch[i]))
    && (forall j :: j in after && j !in jobs ==> exists i :: 0 <= i < |batch| && BringsKey(jobs, batch, i) && batch[i].id == j)
  }

  /** The events of those that bring a key, in the order of the batch. */
  ghost function Announced(jobs: map<JobId, Job>, batch: seq<Entry>, n: nat): seq<Event>
    requires n <= |batch|
  {
    if n == 0 then [] else Announced(jobs, batch, n - 1) + Announcement(jobs, batch, n - 1)
  }

  ghost function Announcement(jobs: map<JobId, Job>, batch: seq<Entry>, i: int): seq<Event>
    requires 0 <= i < |batch|
  {
    if BringsKey(jobs, batch, i) then [Event(batch[i].id, None, Submitted, None)] else []
  }

  lemma BringsLater(db: Db, batch: seq<Entry>, i: int)
    requires 0 < i < |batch| && DistinctKeys(db.jobs) && batch[0].id !in db.jobs
    ensures BringsKey(InsertJob(db, batch[0]).jobs, batch[1..], i - 1) <==> BringsKey(db.jobs, batch, i)
  {
    Inserted(db, batch[0]);
    var next := InsertJob(db, batch[0]).jobs;
    if BringsKey(db.jobs, batch, i) {
      forall k | 0 <= k < i - 1 ensures KeyOf(batch[1..][k]) != KeyOf(batch[1..][i - 1]) {
        assert KeyOf(batch[k + 1]) != KeyOf(batch[i]);
      }
    }
    if BringsKey(next, batch[1..], i - 1) {
      forall k | 0 <= k < i ensures KeyOf(batch[k]) != KeyOf(batch[i]) {
        if k > 0 { assert KeyOf(batch[1..][k - 1]) != KeyOf(batch[1..][i - 1]); }
      }
    }
  }

  lemma {:induction false} AnnouncedFirst(db: Db, batch: seq<Entry>, n: nat)
    requires 0 < n <= |batch| && DistinctKeys(db.jobs) && batch[0].id !in db.jobs
    ensures Announced(db.jobs, batch, n)
         == Announcement(db.jobs, batch, 0) + Announced(InsertJob(db, batch[0]).jobs, batch[1..], n - 1)
  {
    if n > 1 {
      AnnouncedFirst(db, batch, n - 1);
      BringsLater(db, batch, n - 1);
    } else {
      assert Announced(db.jobs, batch, 0) == [];
    }
  }

  lemma {:induction false} InsertAnnounces(db: Db, batch: seq<Entry>)
    requires batch != [] && DistinctKeys(db.jobs) && batch[0].id !in db.jobs
    ensures InsertJob(db, batch[0]).events + Announced(InsertJob(db, batch[0]).jobs, batch[1..], |batch| - 1)
         == db.events + Announced(db.jobs, batch, |batch|)
  {
    AnnouncedFirst(db, batch, |batch|);
    assert InsertJob(db, batch[0]).events == db.events + Announcement(db.jobs, batch, 0);
  }

  lemma GrownFirst(db: Db, batch: seq<Entry>, after: map<JobId, Job>)
    requires batch != [] && DistinctKeys(db.jobs) && FreshIds(db.jobs, batch)
    requires Grown(InsertJob(db, batch[0]).jobs, batch[1..], after)
    ensures Grown(db.jobs, batch, after)
  {
    var rest, next := batch[1..], InsertJob(db, batch[0]).jobs;
    forall i | 0 <= i < |batch| && BringsKey(db.jobs, batch, i)
      ensures batch[i].id in after && after[batch[i].id] == Queued(batch[i])
    {
      if i == 0 { assert batch[0].id in next; }
      else {
        BringsLater(db, batch, i);
        assert rest[i - 1] == batch[i];
      }
    }
    forall j | j in after && j !in db.jobs
      ensures exists i :: 0 <= i < |batch| && BringsKey(db.jobs, batch, i) && batch[i].id == j
    {
      if j in next {
        assert BringsKey(db.jobs, batch, 0);
      } else {
        var i :| 0 <= i < |rest| && BringsKey(next, rest, i) && rest[i].id == j;
        BringsLater(db, batch, i + 1);
      }
    }
  }

  lemma FreshRest(db: Db, batch: seq<Entry>)
    requires batch != [] && FreshIds(db.jobs, batch)
    ensures FreshIds(InsertJob(db, batch[0]).jobs, batch[1..])
  {
  }

  /** A batch that goes through adds the jobs of the keys it brings, announces each once and in
      order, and answers every entry with the job that has its key and its definition. */
  lemma {:induction false} SubmitMeans(db: Db, batch: seq<Entry>, out: seq<JobId>)
    requires DistinctKeys(db.jobs) && FreshIds(db.jobs, batch) && SubmitAll(db, batch, out).Done?
    ensures var done := SubmitAll(db, batch, out);
            && Grown(db.jobs, batch, done.db.jobs) && DistinctKeys(done.db.jobs)
            && done.db.events == db.events + Announced(db.jobs, batch, |batch|)
    decreases |batch|
  {
    if batch != [] {
      var next := InsertJob(db, batch[0]);
      Inserted(db, batch[0]);
      FreshRest(db, batch);
      SubmitMeans(next, batch[1..], out + [KeyOwner(next.jobs, KeyOf(batch[0]))]);
      GrownFirst(db, batch, SubmitAll(db, batch, out).db.jobs);
      InsertAnnounces(db, batch);
    }
  }

  /** Entry by entry, the answer names the job with the entry's definition. */
  ghost predicate Answers(jobs: map<JobId, Job>, batch: seq<Entry>, ids: seq<JobId>) {
    |ids| == |batch| && forall i :: 0 <= i < |batch| ==> ids[i] in jobs && jobs[ids[i]].definition == batch[i].definition
  }

  lemma {:induction false} SubmitAnswers(db: Db, batch: seq<Entry>, out: seq<JobId>)
    requires DistinctKeys(db.jobs) && FreshIds(db.jobs, batch) && SubmitAll(db, batch, out).Done?
    ensures var done := SubmitAll(db, batch, out);
            && done.response.SubmittedAs? && out <= done.response.ids
            && Answers(done.db.jobs, batch, done.response.ids[|out|..])
    decreases |batch|
  {
    if batch != [] {
      var next := InsertJob(db, batch[0]);
      var j := KeyOwner(next.jobs, KeyOf(batch[0]));
      Inserted(db, batch[0]);
      FreshRest(db, batch);
      SubmitAnswers(next, batch[1..], out + [j]);
      SubmitMeans(next, batch[1..], out + [j]);
      var done := SubmitAll(db, batch, out);
      assert done.response.ids[|out|] == j;
      assert done.response.ids[|out|..][1..] == done.response.ids[|out| + 1..];
      forall i | 0 <= i < |batch|
        ensures done.response.ids[|out|..][i] in done.db.jobs
                && done.db.jobs[done.response.ids[|out|..][i]].definition == batch[i].definition
      {
        if i > 0 { assert batch[1..][i - 1] == batch[i]; }
      }
    }
  }

  lemma AnswersByKey(jobs: map<JobId, Job>, batch: seq<Entry>, ids: seq<JobId>, i: int, k: int)
    requires DistinctKeys(jobs) && Answers(jobs, batch, ids) && 0 <= i < |batch| && 0 <= k < |batch|
    ensures ids[i] == ids[k] <==> KeyOf(batch[i]) == KeyOf(batch[k])
  {
    if KeyOf(batch[i]) == KeyOf(batch[k]) { assert SameKey(jobs, ids[i], ids[k]); }
  }

  /** Submission as its callers see it. A well-formed batch goes through exactly when it is
      compatible; then every entry is answered by the one job of its key, which has its definition,
      and the tables have grown by one job and one event for each key it brought. */
  lemma SubmitIsAllOrNothing(db: Db, batch: seq<Entry>)
    requires Inv(db) && Legal(db, Submit(batch))
    ensures var (after, result) := Apply(db, Submit(batch));
            if BatchInvalid(batch) then after == db && result == Err(Invalid)
            else if !Compatible(db.jobs, batch) then after == db && result == Err(Conflict)
            else && result.Ok? && result.response.SubmittedAs? && Answers(after.jobs, batch, result.response.ids)
                 && Grown(db.jobs, batch, after.jobs)
                 && after == db.(jobs := after.jobs, events := db.events + Announced(db.jobs, batch, |batch|))
  {
    if !BatchInvalid(batch) {
      SubmitGoes(db, batch, []);
      if Compatible(db.jobs, batch) {
        SubmitMeans(db, batch, []);
        SubmitAnswers(db, batch, []);
        var done := SubmitAll(db, batch, []);
        assert done.response.ids[0..] == done.response.ids;
        SubmitLeavesRest(db, batch, []);
      }
    }
  }

  lemma {:induction false} SubmitLeavesRest(db: Db, batch: seq<Entry>, out: seq<JobId>)
    requires SubmitAll(db, batch, out).Done?
    ensures var after := SubmitAll(db, batch, out).db;
            after == db.(jobs := after.jobs, events := after.events)
    decreases |batch|
  {
    if batch != [] {
      var next := InsertJob(db, batch[0]);
      SubmitLeavesRest(next, batch[1..], out + [KeyOwner(next.jobs, KeyOf(batch[0]))]);
    }
  }

  // ------------------------------------------------------------------ submitting again

  lemma {:induction false} SubmitAgain(db: Db, batch: seq<Entry>, out: seq<JobId>, ids: seq<JobId>)
    requires DistinctKeys(db.jobs) && Answers(db.jobs, batch, ids)
    ensures SubmitAll(db, batch, out) == Done(db, SubmittedAs(out + ids))
    decreases |batch|
  {
    if batch == [] {
      assert out + ids == out;
    } else {
      assert KeyTaken(db.jobs, KeyOf(batch[0]));
      assert SameKey(db.jobs, ids[0], KeyOwner(db.jobs, KeyOf(batch[0])));
      SubmitAgain(db, batch[1..], out + [ids[0]], ids[1..]);
      assert out + [ids[0]] + ids[1..] == out + ids;
    }
  }

  predicate SameDefinitions(batch: seq<Entry>, again: seq<Entry>) {
    |again| == |batch| && forall i :: 0 <= i < |batch| ==> again[i].definition == batch[i].definition
  }

  lemma AnswersLater(jobs: map<JobId, Job>, later: map<JobId, Job>, batch: seq<Entry>, again: seq<Entry>, ids: seq<JobId>)
    requires Answers(jobs, batch, ids) && JobsEvolve(jobs, later) && SameDefinitions(batch, again) && !BatchInvalid(batch)
    ensures Answers(later, again, ids) && !BatchInvalid(again)
  {
    forall i | 0 <= i < |again| ensures ids[i] in later && later[ids[i]].definition == again[i].definition {
      assert JobEvolves(jobs[ids[i]], later[ids[i]]);
    }
  }

  lemma SubmitAgainWhole(db: Db, batch: seq<Entry>, ids: seq<JobId>)
    requires DistinctKeys(db.jobs) && Answers(db.jobs, batch, ids) && !BatchInvalid(batch)
    ensures Apply(db, Submit(batch)) == (db, Ok(SubmittedAs(ids)))
  {
    SubmitAgain(db, batch, [], ids);
    assert [] + ids == ids;
  }

  /** Submitting the same definitions again, however much later, creates nothing and names the
      same jobs. */
  lemma ResubmissionIsInvisible(db: Db, batch: seq<Entry>, run: seq<Command>, again: seq<Entry>)
    requires Inv(db) && Legal(db, Submit(batch)) && Apply(db, Submit(batch)).1.Ok?
    requires LegalRun(Apply(db, Submit(batch)).0, run)
    requires SameDefinitions(batch, again)
    ensures var later := Final(Apply(db, Submit(batch)).0, run);
            Apply(later, Submit(again)) == (later, Apply(db, Submit(batch)).1)
  {
    SubmitIsAllOrNothing(db, batch);
    var after, ids := Apply(db, Submit(batch)).0, Apply(db, Submit(batch)).1.response.ids;
    StepKeeps(db, Submit(batch));
    RunKeeps(after, run);
    AnswersLater(after.jobs, Final(after, run).jobs, batch, again, ids);
    SubmitAgainWhole(Final(after, run), again, ids);
  }
}
