/** The worker process: what it believes of its lease, how it uploads and how it reports. */
module Execution {
  import opened Model
  import opened ObjectKeys
  import opened Fleet

  // ------------------------------------------------------------------ the renewal thread

  /** What a heartbeat came to: a new local deadline, a refusal that says the lease is gone, or nothing. */
  datatype Beat = Extended(deadline: int) | Gone | Unheard

  /** A wake-up of the renewal thread: the local time it found, and what its heartbeat came to. */
  datatype Wake = Wake(now: int, beat: Beat)

  function AfterWake(h: Holding, w: Wake): Holding {
    if FindsItGone(h, w.now) then h.(lost := true)
    else
      match w.beat
      case Extended(deadline) => h.(deadline := deadline)
      case Gone => h.(lost := true)
      case Unheard => h
  }

  /** A wake-up that finds the lease gone. */
  predicate FindsItGone(h: Holding, now: int) {
    h.lost || h.deadline <= now
  }

  function AfterWakes(h: Holding, wakes: seq<Wake>): Holding {
    if wakes == [] then h else AfterWake(AfterWakes(h, wakes[..|wakes| - 1]), wakes[|wakes| - 1])
  }

  class Lease {
    const worker: WorkerId
    const job: JobId
    const number: int
    var deadline: int
    var lost: bool
    var killed: bool

    ghost function View(): Holding
      reads this
    {
      Holding(worker, job, number, deadline, lost)
    }

    constructor (worker: WorkerId, job: JobId, number: int, deadline: int)
      ensures View() == Holding(worker, job, number, deadline, false) && !killed
    {
      this.worker, this.job, this.number, this.deadline := worker, job, number, deadline;
      lost, killed := false, false;
    }

    method Alive(now: int) returns (alive: bool)
      ensures alive <==> !lost && now < deadline
    {
      return !lost && now < deadline;
    }

    /** One wake-up: leave and kill if the lease is gone, otherwise act on the heartbeat. */
    method WakeUp(w: Wake) returns (leave: bool)
      modifies this
      ensures View() == AfterWake(old(View()), w)
      ensures leave <==> FindsItGone(old(View()), w.now)
      ensures killed == (old(killed) || leave)
    {
      var alive := Alive(w.now);
      leave := !alive;
      if leave {
        lost, killed := true, true;
        return;
      }
      match w.beat {
        case Extended(until) => deadline := until;
        case Gone => lost := true;
        case Unheard =>
      }
    }

    /** The loop of the renewal thread over the wake-ups until the attempt is done. It leaves at the
        first one that finds the lease gone, and then, and only then, it kills the command. */
    method Renew(wakes: seq<Wake>)
      requires !killed && !lost
      modifies this
      ensures View() == AfterWakes(old(View()), wakes)
      ensures killed <==> exists i :: 0 <= i < |wakes| && FindsItGone(AfterWakes(old(View()), wakes[..i]), wakes[i].now)
      ensures killed ==> lost
    {
      var i := 0;
      assert wakes[..0] == [];
      while i < |wakes|
        invariant 0 <= i <= |wakes| && !killed
        invariant View() == AfterWakes(old(View()), wakes[..i])
        invariant forall k :: 0 <= k < i ==> !FindsItGone(AfterWakes(old(View()), wakes[..k]), wakes[k].now)
      {
        NextWake(old(View()), wakes, i);
        var leave := WakeUp(wakes[i]);
        if leave {
          LostForGood(old(View()), wakes, i + 1);
          return;
        }
        i := i + 1;
      }
      assert wakes[..i] == wakes;
    }
  }

  lemma NextWake(h: Holding, wakes: seq<Wake>, i: nat)
    requires i < |wakes|
    ensures AfterWakes(h, wakes[..i + 1]) == AfterWake(AfterWakes(h, wakes[..i]), wakes[i])
  {
    assert wakes[..i + 1][..i] == wakes[..i];
  }

  /** A lease once found lost is never believed in again. */
  lemma {:induction false} LostForGood(h: Holding, wakes: seq<Wake>, n: nat)
    requires n <= |wakes| && AfterWakes(h, wakes[..n]).lost
    ensures AfterWakes(h, wakes) == AfterWakes(h, wakes[..n])
    decreases |wakes|
  {
    if n == |wakes| {
      assert wakes[..n] == wakes;
    } else {
      assert wakes[..|wakes| - 1][..n] == wakes[..n];
      LostForGood(h, wakes[..|wakes| - 1], n);
    }
  }

  /** Every wake-up is an event of the fleet or none: finding the lease gone and being told so are
      losing it, a renewal is the receipt of its answer, and a heartbeat unheard of changes nothing. */
  lemma WakeIsEvent(s: System, a: AttemptId, w: Wake, reply: Reply)
    requires a in s.holdings && w.now == Local(s, s.holdings[a].worker)
    requires w.beat.Extended? ==>
               && reply.id in s.calls && reply.result.Ok? && reply.result.response.Renewed?
               && NamedAttempt(s.calls[reply.id].request.attempt) == a
               && s.calls[reply.id].request.worker == s.holdings[a].worker
               && w.beat.deadline == LocalDeadline(s.calls[reply.id].started, reply.result.response.leaseExpiresAt,
                                                   reply.result.response.serverTime)
    ensures var after := s.holdings[a := AfterWake(s.holdings[a], w)];
            if !Alive(s, a) || w.beat.Gone? then Step(s, Lose(a)).holdings == after
            else if w.beat.Extended? then Step(s, Receive(reply)).holdings == after
            else s.holdings == after
  {
    assert s.holdings[a := s.holdings[a]] == s.holdings;
  }

  /** While the thread has not lost the lease, each wake-up came before the deadline then in force. */
  lemma {:induction false} KeptMeansInTime(h: Holding, wakes: seq<Wake>, i: nat)
    requires i < |wakes| && !AfterWakes(h, wakes).lost
    ensures wakes[i].now < AfterWakes(h, wakes[..i]).deadline && wakes[i].beat != Gone && !AfterWakes(h, wakes[..i]).lost
    decreases |wakes|
  {
    var shorter := wakes[..|wakes| - 1];
    if i < |wakes| - 1 {
      assert shorter[..i] == wakes[..i];
      KeptMeansInTime(h, shorter, i);
    }
  }

  // ------------------------------------------------------------------ uploading

  datatype Upload = Stored(artifact: Artifact) | LeaseLost | GaveUp

  /** What each of the five tries meets: whether the lease is still believed in, and whether the put works. */
  datatype Weather = Weather(alive: bool, put: bool)

  /** The pause after a failed put: a fifth of a second, doubling up to two seconds. */
  function Backoff(i: nat): nat {
    if i == 0 then 200 else Min(2 * Backoff(i - 1), 2000)
  }

  predicate Fails(w: Weather) {
    w.alive && !w.put
  }

  class Artifacts {
    var failures: nat

    constructor ()
      ensures failures == 0
    {
      failures := 0;
    }

    /** Up to five puts under one key. The try that ends it is the first that is not a failed put;
        each failure is counted. */
    method Upload(artifactPrefix: string, job: string, attempt: string, kind: string, uuid: string, name: string,
                  size: int, checksum: string, named: Kind, weather: seq<Weather>) returns (outcome: Upload, tried: nat, slept: nat)
      requires |weather| == 5
      modifies this
      ensures tried <= 5 && forall i :: 0 <= i < tried ==> Fails(weather[i])
      ensures failures == old(failures) + tried
      ensures tried < 5 ==> !Fails(weather[tried])
      ensures outcome == if tried == 5 then GaveUp
                         else if !weather[tried].alive then LeaseLost
                         else Stored(Artifact(WorkerKey(artifactPrefix, job, attempt, kind, uuid, name),
                                              "application/octet-stream", size, checksum, named))
      ensures slept == [0, 200, 600, 1400, 3000, 3000][tried]
    {
      var key := WorkerKey(artifactPrefix, job, attempt, kind, uuid, name);
      tried, slept := 0, 0;
      var pause := 200;
      while tried < 5
        invariant 0 <= tried <= 5 && failures == old(failures) + tried
        invariant forall i :: 0 <= i < tried ==> Fails(weather[i])
        invariant pause == Backoff(tried) && slept == Slept(tried)
      {
        if !weather[tried].alive { SleptIs(tried); return LeaseLost, tried, slept; }
        if weather[tried].put {
          SleptIs(tried);
          return Stored(Artifact(key, "application/octet-stream", size, checksum, named)), tried, slept;
        }
        failures := failures + 1;
        if tried < 4 { slept := slept + pause; }
        tried := tried + 1;
        pause := Min(2 * pause, 2000);
      }
      SleptIs(5);
      outcome := GaveUp;
    }
  }

  function Slept(n: nat): nat {
    if n == 0 then 0 else Slept(n - 1) + if n == 5 then 0 else Backoff(n - 1)
  }

  lemma SleptIs(n: nat)
    requires n <= 5
    ensures Slept(n) == [0, 200, 600, 1400, 3000, 3000][n]
  {
    assert Backoff(1) == 400 && Backoff(2) == 800 && Backoff(3) == 1600;
    assert Slept(1) == 200 && Slept(2) == 600 && Slept(3) == 1400 && Slept(4) == 3000 && Slept(5) == 3000;
  }

  // ------------------------------------------------------------------ reporting in batches

  function Joined<T>(batches: seq<seq<T>>): seq<T> {
    if batches == [] then [] else Joined(batches[..|batches| - 1]) + batches[|batches| - 1]
  }

  /** Reports entries a hundred at a time until a report fails. Every report stays within the server's
      limit, none is empty, and what was reported is a prefix of the entries, in order. */
  method ReportInBatches<T>(entries: seq<T>, accepted: nat -> bool) returns (batches: seq<seq<T>>, all: bool)
    ensures forall k :: 0 <= k < |batches| ==> 1 <= |batches[k]| <= 100
    ensures forall k: nat :: k < |batches| ==> accepted(k)
    ensures Joined(batches) <= entries
    ensures all <==> Joined(batches) == entries
    ensures !all ==> !accepted(|batches|)
  {
    batches := [];
    var index := 0;
    while index < |entries|
      invariant 0 <= index <= |entries| && Joined(batches) == entries[..index]
      invariant forall k :: 0 <= k < |batches| ==> 1 <= |batches[k]| <= 100
      invariant forall k: nat :: k < |batches| ==> accepted(k)
    {
      var end := Min(index + 100, |entries|);
      if !accepted(|batches|) { return batches, false; }
      batches := batches + [entries[index..end]];
      assert batches[..|batches| - 1] + [entries[index..end]] == batches;
      assert entries[..index] + entries[index..end] == entries[..end];
      index := end;
    }
    assert entries[..index] == entries;
    all := true;
  }
}
