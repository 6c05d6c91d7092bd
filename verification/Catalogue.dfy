/** Object keys: what workers build is what the server accepts, and one key stands for one artifact. */
module Catalogue {
  import opened Model
  import opened ObjectKeys
  import opened Transactions
  import opened Evolution
  import opened Steps
  import opened Runs
  import opened Causes
  import opened ArtifactRows
  import opened Checkpoints

  // ------------------------------------------------------------------ names of attempts

  predicate AllHex(s: string) {
    forall i :: 0 <= i < |s| ==> s[i] in "0123456789abcdefABCDEF"
  }

  lemma HexDigitIs(c: char)
    ensures HexDigit(c) <==> c in "0123456789abcdefABCDEF"
  {
    var hex := "0123456789abcdefABCDEF";
    if '0' <= c <= '9' { assert hex[c as int - '0' as int] == c; }
    if 'a' <= c <= 'f' { assert hex[10 + c as int - 'a' as int] == c; }
    if 'A' <= c <= 'F' { assert hex[16 + c as int - 'A' as int] == c; }
  }

  function Hyphenated(a: string, b: string, c: string, d: string, e: string): string {
    a + "-" + b + "-" + c + "-" + d + "-" + e
  }

  predicate Groups(a: string, b: string, c: string, d: string, e: string) {
    && |a| == 8 && |b| == 4 && |c| == 4 && |d| == 4 && |e| == 12
    && AllHex(a) && AllHex(b) && AllHex(c) && AllHex(d) && AllHex(e)
  }

  /** An id is five groups of 8, 4, 4, 4 and 12 hexadecimal digits, in either case, joined by hyphens. */
  lemma UuidIsGroups(s: string)
    ensures UuidText(s) <==> exists a, b, c, d, e :: Groups(a, b, c, d, e) && s == Hyphenated(a, b, c, d, e)
  {
    if UuidText(s) { UuidHasGroups(s); }
    if a, b, c, d, e :| Groups(a, b, c, d, e) && s == Hyphenated(a, b, c, d, e) { GroupsAreUuid(a, b, c, d, e); }
  }

  lemma UuidHasGroups(s: string)
    requires UuidText(s)
    ensures Groups(s[..8], s[9..13], s[14..18], s[19..23], s[24..])
    ensures s == Hyphenated(s[..8], s[9..13], s[14..18], s[19..23], s[24..])
  {
    forall i | 0 <= i < 36 && i !in {8, 13, 18, 23} ensures s[i] in "0123456789abcdefABCDEF" { HexDigitIs(s[i]); }
    var t := Hyphenated(s[..8], s[9..13], s[14..18], s[19..23], s[24..]);
    forall i | 0 <= i < 36 ensures s[i] == t[i] {
      GroupOf(s[..8], s[9..13], s[14..18], s[19..23], s[24..], i);
    }
  }

  lemma GroupsAreUuid(a: string, b: string, c: string, d: string, e: string)
    requires Groups(a, b, c, d, e)
    ensures UuidText(Hyphenated(a, b, c, d, e))
  {
    var s := Hyphenated(a, b, c, d, e);
    forall i | 0 <= i < 36 ensures if i in {8, 13, 18, 23} then s[i] == '-' else HexDigit(s[i]) {
      HexDigitIs(s[i]);
      GroupOf(a, b, c, d, e, i);
    }
  }

  lemma GroupOf(a: string, b: string, c: string, d: string, e: string, i: int)
    requires |a| == 8 && |b| == 4 && |c| == 4 && |d| == 4 && |e| == 12 && 0 <= i < 36
    ensures Hyphenated(a, b, c, d, e)[i]
         == if i < 8 then a[i] else if i == 8 then '-' else if i < 13 then b[i - 9] else if i == 13 then '-'
            else if i < 18 then c[i - 14] else if i == 18 then '-' else if i < 23 then d[i - 19]
            else if i == 23 then '-' else e[i - 24]
  {
  }

  /** The characters are the same but for case. */
  predicate SameLetter(c: char, d: char) {
    || c == d
    || ('A' <= c <= 'Z' && d as int == c as int + 32)
    || ('A' <= d <= 'Z' && c as int == d as int + 32)
  }

  /** Two texts name the same attempt exactly when they differ at most in case. */
  lemma SameAttemptExactly(s: string, t: string)
    ensures NamedAttempt(s) == NamedAttempt(t) <==> |s| == |t| && forall i :: 0 <= i < |s| ==> SameLetter(s[i], t[i])
  {
    if |s| == |t| {
      forall i | 0 <= i < |s| ensures Lower(s)[i] == Lower(t)[i] <==> SameLetter(s[i], t[i]) {
      }
      if forall i :: 0 <= i < |s| ==> SameLetter(s[i], t[i]) { assert Lower(s) == Lower(t); }
    }
    if NamedAttempt(s) == NamedAttempt(t) { assert |Lower(s)| == |s| && |Lower(t)| == |t|; }
  }

  // ------------------------------------------------------------------ the worker's key

  predicate Dotless(s: string) {
    forall i :: 0 <= i < |s| ==> s[i] != '.'
  }

  /** A character that is not a dot keeps two dots apart. */
  lemma DotsBeside(u: string, c: char, v: string)
    requires c != '.'
    ensures HasDoubleDot(u + [c] + v) <==> HasDoubleDot(u) || HasDoubleDot(v)
  {
    var s := u + [c] + v;
    if HasDoubleDot(u) {
      var i :| 0 <= i < |u| - 1 && u[i] == '.' && u[i + 1] == '.';
      assert s[i] == '.' && s[i + 1] == '.';
    }
    if HasDoubleDot(v) {
      var i :| 0 <= i < |v| - 1 && v[i] == '.' && v[i + 1] == '.';
      assert s[|u| + 1 + i] == '.' && s[|u| + 1 + i + 1] == '.';
    }
    if HasDoubleDot(s) {
      var i :| 0 <= i < |s| - 1 && s[i] == '.' && s[i + 1] == '.';
      if i + 1 < |u| { assert u[i] == '.' && u[i + 1] == '.'; }
      else { assert v[i - |u| - 1] == '.' && v[i - |u| - 1 + 1] == '.'; }
    }
  }

  lemma {:induction false} TrimLeftIs(s: string)
    ensures |TrimLeft(s)| <= |s| && TrimLeft(s) == s[|s| - |TrimLeft(s)|..]
  {
    if s != "" && s[0] == '/' { TrimLeftIs(s[1..]); }
  }

  lemma {:induction false} TrimRightIs(s: string)
    ensures |TrimRight(s)| <= |s| && TrimRight(s) == s[..|TrimRight(s)|]
  {
    if s != "" && s[|s| - 1] == '/' { TrimRightIs(s[..|s| - 1]); }
  }

  lemma TrimDots(s: string)
    requires HasDoubleDot(Trim(s))
    ensures HasDoubleDot(s)
  {
    var left := TrimLeft(s);
    TrimLeftIs(s);
    TrimRightIs(left);
    var i :| 0 <= i < |Trim(s)| - 1 && Trim(s)[i] == '.' && Trim(s)[i + 1] == '.';
    assert left[i] == '.' && left[i + 1] == '.';
    var k := |s| - |left|;
    assert s[k + i] == '.' && s[k + i + 1] == '.';
  }

  lemma Joined(trimmed: string, job: string, attempt: string, kind: string, file: string)
    requires job != "" && attempt != "" && kind != "" && file != ""
    ensures JoinNonEmpty([trimmed, job, attempt, kind, file])
         == (if trimmed == "" then "" else trimmed + "/") + job + "/" + attempt + "/" + kind + "/" + file
  {
    var five := [trimmed, job, attempt, kind, file];
    assert five[1..] == [job, attempt, kind, file];
    assert five[1..][1..] == [attempt, kind, file];
    assert five[1..][1..][1..] == [kind, file];
    assert five[1..][1..][1..][1..] == [file];
    assert JoinNonEmpty([file]) == file;
    assert JoinNonEmpty([kind, file]) == kind + "/" + file;
    assert JoinNonEmpty([attempt, kind, file]) == attempt + "/" + (kind + "/" + file);
    var rest := JoinNonEmpty(five[1..]);
    assert rest == job + "/" + (attempt + "/" + (kind + "/" + file));
    if trimmed == "" {
      assert rest == "" + job + "/" + attempt + "/" + kind + "/" + file;
    } else {
      assert trimmed + "/" + rest == trimmed + "/" + job + "/" + attempt + "/" + kind + "/" + file;
    }
  }

  lemma PrefixDots(artifactPrefix: string, job: string, attempt: string)
    requires !HasDoubleDot(artifactPrefix) && Dotless(job) && Dotless(attempt)
    ensures !HasDoubleDot(ServerPrefix(artifactPrefix, job, attempt))
  {
    var trimmed := Trim(artifactPrefix);
    if HasDoubleDot(trimmed) { TrimDots(artifactPrefix); }
    var head := if trimmed != "" then trimmed + "/" else trimmed;
    var all := head + job + "/" + attempt + "/";
    if HasDoubleDot(all) {
      DotsBeside(head + job + "/" + attempt, '/', "");
      assert all == head + job + "/" + attempt + ['/'] + "";
      DotsBeside(head + job, '/', attempt);
      if trimmed != "" { DotsBeside(trimmed, '/', job); }
    }
  }

  /** For every artifact prefix, whatever slashes surround it, worker and server agree on where an
      attempt's objects go. */
  lemma WorkerKeyHasPrefix(artifactPrefix: string, job: string, attempt: string, kind: string, uuid: string, name: string)
    requires job != "" && attempt != "" && kind != ""
    ensures WorkerKey(artifactPrefix, job, attempt, kind, uuid, name)
         == ServerPrefix(artifactPrefix, job, attempt) + kind + "/" + uuid + "-" + name
  {
    Joined(Trim(artifactPrefix), job, attempt, kind, uuid + "-" + name);
    assert ServerPrefix(artifactPrefix, job, attempt) + kind + "/" + (uuid + "-" + name)
        == ServerPrefix(artifactPrefix, job, attempt) + kind + "/" + uuid + "-" + name;
  }

  /** The server accepts the key a worker builds for a file of a validated job exactly when the file
      name has no two dots in a row. */
  lemma WorkerKeyAccepted(artifactPrefix: string, job: string, attempt: string, kind: string, uuid: string, name: string)
    requires !HasDoubleDot(artifactPrefix) && UuidText(job) && UuidText(attempt) && UuidText(uuid)
    requires kind != "" && Dotless(kind)
    ensures PathAccepted(artifactPrefix, job, attempt, WorkerKey(artifactPrefix, job, attempt, kind, uuid, name))
       <==> !HasDoubleDot(name)
  {
    var prefix := ServerPrefix(artifactPrefix, job, attempt);
    var file := uuid + "-" + name;
    WorkerKeyHasPrefix(artifactPrefix, job, attempt, kind, uuid, name);
    var key := WorkerKey(artifactPrefix, job, attempt, kind, uuid, name);
    assert key == prefix + kind + ['/'] + file;
    assert prefix <= key;
    PrefixDots(artifactPrefix, job, attempt);
    DotsBeside(prefix + kind, '/', file);
    DotsBeside(uuid, '-', name);
    assert file == uuid + ['-'] + name;
    DotsBeside(prefix[..|prefix| - 1], '/', kind);
    assert prefix + kind == prefix[..|prefix| - 1] + ['/'] + kind;
    DotsBeside(prefix[..|prefix| - 1], '/', "");
    assert prefix == prefix[..|prefix| - 1] + ['/'] + "";
  }

  // ------------------------------------------------------------------ whose keys can coincide

  /** Some key would be accepted from both attempts. */
  ghost predicate ShareKey(p: string, job: string, attempt: string, q: string, other: string, rival: string) {
    exists key :: PathAccepted(p, job, attempt, key) && PathAccepted(q, other, rival, key)
  }

  /** Two attempts can report a common key exactly when the prefix of one begins with the other's. */
  lemma ShareExactly(p: string, job: string, attempt: string, q: string, other: string, rival: string)
    requires !HasDoubleDot(p) && !HasDoubleDot(q)
    requires Dotless(job) && Dotless(attempt) && Dotless(other) && Dotless(rival)
    ensures ShareKey(p, job, attempt, q, other, rival) <==>
            ServerPrefix(p, job, attempt) <= ServerPrefix(q, other, rival)
            || ServerPrefix(q, other, rival) <= ServerPrefix(p, job, attempt)
  {
    var mine, theirs := ServerPrefix(p, job, attempt), ServerPrefix(q, other, rival);
    PrefixDots(p, job, attempt);
    PrefixDots(q, other, rival);
    if mine <= theirs { assert PathAccepted(p, job, attempt, theirs) && PathAccepted(q, other, rival, theirs); }
    if theirs <= mine { assert PathAccepted(p, job, attempt, mine) && PathAccepted(q, other, rival, mine); }
  }

  /** Under one artifact prefix every attempt has its keys to itself. */
  lemma AttemptsApart(p: string, q: string, job: string, attempt: string, other: string, rival: string, key: string)
    requires UuidText(job) && UuidText(attempt) && UuidText(other) && UuidText(rival) && Trim(p) == Trim(q)
    requires PathAccepted(p, job, attempt, key) && PathAccepted(q, other, rival, key)
    ensures job == other && attempt == rival
  {
    var mine, theirs := ServerPrefix(p, job, attempt), ServerPrefix(q, other, rival);
    assert mine == key[..|mine|] && theirs == key[..|theirs|];
    var head := if Trim(p) != "" then Trim(p) + "/" else Trim(p);
    SameParts(head, job, attempt, other, rival);
  }

  lemma SameParts(head: string, u: string, v: string, x: string, y: string)
    requires |u| == |x| && |v| == |y| && head + u + "/" + v + "/" == head + x + "/" + y + "/"
    ensures u == x && v == y
  {
    var s, t := head + u + "/" + v + "/", head + x + "/" + y + "/";
    var n := |head| + |u|;
    assert u == s[|head|..n] && x == t[|head|..n];
    assert v == s[n + 1..n + 1 + |v|] && y == t[n + 1..n + 1 + |y|];
  }

  lemma UuidPlain(s: string)
    requires UuidText(s)
    ensures |s| == 36 && Dotless(s) && s[0] != '/' && s[35] != '/'
  {
  }

  lemma TrimKeeps(q: string)
    requires q != "" && q[0] != '/' && q[|q| - 1] != '/'
    ensures Trim(q) == q
  {
  }

  /** Attempts at two jobs do share keys when one job's artifact prefix leads into the other's files. */
  lemma NestedShares(job: string, attempt: string, other: string, rival: string)
    requires UuidText(job) && UuidText(attempt) && UuidText(other) && UuidText(rival)
    ensures ShareKey("", job, attempt, job + "/" + attempt, other, rival)
  {
    UuidPlain(job);
    UuidPlain(attempt);
    UuidPlain(other);
    UuidPlain(rival);
    NestedPrefix(job, attempt, other, rival);
    ShareExactly("", job, attempt, job + "/" + attempt, other, rival);
  }

  lemma NestedPrefix(job: string, attempt: string, other: string, rival: string)
    requires job != "" && attempt != "" && job[0] != '/' && attempt[|attempt| - 1] != '/'
    requires Dotless(job) && Dotless(attempt)
    ensures !HasDoubleDot(job + "/" + attempt)
    ensures ServerPrefix("", job, attempt) <= ServerPrefix(job + "/" + attempt, other, rival)
  {
    var q := job + "/" + attempt;
    assert q == job + ['/'] + attempt;
    DotsBeside(job, '/', attempt);
    TrimKeeps(q);
    assert ServerPrefix("", job, attempt) == q + "/";
    assert ServerPrefix(q, other, rival) == q + "/" + other + "/" + rival + "/";
  }

  // ------------------------------------------------------------------ the table of artifacts

  ghost predicate DistinctObjects(rows: seq<ArtifactRow>) {
    forall i, k :: 0 <= i < k < |rows| ==> rows[i].meta.key != rows[k].meta.key
  }

  /** The row passed the server's checks, under some spelling of its attempt's id. */
  ghost predicate Filed(jobs: map<JobId, Job>, row: ArtifactRow) {
    && row.job in jobs
    && exists text :: UuidText(text) && NamedAttempt(text) == row.attempt
                      && ArtifactAccepted(ServerPrefix(jobs[row.job].definition.artifactPrefix, row.job.text, text), row.meta)
  }

  ghost predicate Catalogued(db: Db) {
    DistinctObjects(db.artifacts) && forall i :: 0 <= i < |db.artifacts| ==> Filed(db.jobs, db.artifacts[i])
  }

  lemma {:induction false} FindIsThere(rows: seq<ArtifactRow>, key: string)
    ensures FindArtifact(rows, key).None? <==> forall i :: 0 <= i < |rows| ==> rows[i].meta.key != key
  {
    if rows != [] {
      FindIsThere(rows[1..], key);
      if FindArtifact(rows, key).None? {
        forall i | 0 <= i < |rows| ensures rows[i].meta.key != key {
          if i > 0 { assert rows[i] == rows[1..][i - 1]; }
        }
      }
    }
  }

  lemma {:induction false} AddedObjects(rows: seq<ArtifactRow>, j: JobId, a: AttemptId, prefix: string, list: seq<Artifact>)
    requires DistinctObjects(rows) && AddArtifacts(rows, j, a, prefix, list).Rows?
    ensures var out := AddArtifacts(rows, j, a, prefix, list).rows;
            && DistinctObjects(out) && rows <= out
            && forall i :: |rows| <= i < |out| ==> out[i].job == j && out[i].attempt == a && ArtifactAccepted(prefix, out[i].meta)
    decreases |list|
  {
    if list != [] {
      FindIsThere(rows, list[0].key);
      if FindArtifact(rows, list[0].key).Some? {
        AddedObjects(rows, j, a, prefix, list[1..]);
      } else {
        AddedObjects(rows + [ArtifactRow(j, a, list[0])], j, a, prefix, list[1..]);
      }
    }
  }

  /** The artifacts are as before, or with what the named attempt reported. */
  ghost predicate Received(db: Db, r: Request, after: seq<ArtifactRow>) {
    after == db.artifacts || Filing(db, r, after)
  }

  ghost predicate Filing(db: Db, r: Request, after: seq<ArtifactRow>) {
    var a := NamedAttempt(r.attempt);
    && UuidText(r.attempt) && a in db.attempts && db.attempts[a].job in db.jobs
    && var j := db.attempts[a].job;
    AddArtifacts(db.artifacts, j, a, ServerPrefix(db.jobs[j].definition.artifactPrefix, j.text, r.attempt), r.artifacts)
    == Rows(after)
  }

  lemma ReportReceived(db: Db, call: Method, r: Request, met: Circumstances)
    requires UuidText(r.attempt) && NamedAttempt(r.attempt) in db.attempts
    requires db.attempts[NamedAttempt(r.attempt)].job in db.jobs
    requires Report(db, call, NamedAttempt(r.attempt), r, met).Done?
    ensures Filing(db, r, Report(db, call, NamedAttempt(r.attempt), r, met).db.artifacts)
  {
  }

  lemma AttemptReceived(db: Db, call: Method, r: Request, met: Circumstances)
    requires OnAttempt(db, call, r, met).Done?
    ensures Received(db, r, OnAttempt(db, call, r, met).db.artifacts)
  {
    if call != Heartbeat && call != StartAttempt { ReportReceived(db, call, r, met); }
  }

  lemma DispatchReceived(db: Db, call: Method, r: Request, met: Circumstances)
    requires r.worker in db.workers && Dispatch(db, call, r, met).Done?
    ensures Received(db, r, Dispatch(db, call, r, met).db.artifacts)
  {
    if call != LeaseJob && call != ReleaseWorker && !(call == Heartbeat && r.attempt == "") {
      AttemptReceived(db, call, r, met);
    }
  }

  lemma CallReceived(db: Db, call: Method, r: Request, met: Circumstances)
    requires CallBody(db, call, r, met).Done?
    ensures Received(db, r, CallBody(db, call, r, met).db.artifacts)
  {
    if call != RegisterWorker { DispatchReceived(Touched(db, r.worker, met.touchedAt), call, r, met); }
  }

  lemma StepReceived(db: Db, c: Command)
    requires Inv(db) && Legal(db, c)
    ensures Apply(db, c).0.artifacts == db.artifacts || (c.Rpc? && Filing(db, c.request, Apply(db, c).0.artifacts))
  {
    match c
    case Submit(batch) => SubmitLeavesAttempts(db, batch, []);
    case Reap(scan) => ReapKeepsArtifacts(db, scan);
    case Rpc(call, r, met) => if CallBody(db, call, r, met).Done? { CallReceived(db, call, r, met); }
    case Act(action, j, id, at) =>
  }

  lemma FilingCatalogued(db: Db, r: Request, after: seq<ArtifactRow>)
    requires Catalogued(db) && Filing(db, r, after)
    ensures DistinctObjects(after) && forall i :: 0 <= i < |after| ==> Filed(db.jobs, after[i])
  {
    var a := NamedAttempt(r.attempt);
    var j := db.attempts[a].job;
    AddedObjects(db.artifacts, j, a, ServerPrefix(db.jobs[j].definition.artifactPrefix, j.text, r.attempt), r.artifacts);
  }

  lemma FiledLater(jobs: map<JobId, Job>, later: map<JobId, Job>, row: ArtifactRow)
    requires Filed(jobs, row) && JobsEvolve(jobs, later)
    ensures Filed(later, row)
  {
    assert JobEvolves(jobs[row.job], later[row.job]);
  }

  lemma StepCatalogued(db: Db, c: Command)
    requires Inv(db) && Legal(db, c) && Catalogued(db)
    ensures Catalogued(Apply(db, c).0)
  {
    StepReceived(db, c);
    StepKeeps(db, c);
    var after := Apply(db, c).0;
    if after.artifacts != db.artifacts { FilingCatalogued(db, c.request, after.artifacts); }
    forall i | 0 <= i < |after.artifacts| ensures Filed(after.jobs, after.artifacts[i]) {
      FiledLater(db.jobs, after.jobs, after.artifacts[i]);
    }
  }

  /** In every run an object key stands for one artifact, and it is one the server's checks let its
      job and attempt have. */
  lemma {:induction false} RunCatalogued(db: Db, run: seq<Command>)
    requires Inv(db) && LegalRun(db, run) && Catalogued(db)
    ensures Catalogued(Final(db, run)) && db.artifacts <= Final(db, run).artifacts
    decreases |run|
  {
    if run != [] {
      StepCatalogued(db, run[0]);
      StepKeeps(db, run[0]);
      RunCatalogued(Apply(db, run[0]).0, run[1..]);
    }
  }

  // ------------------------------------------------------------------ reporting again

  /** The row is in the table, and found under its key. */
  ghost predicate OnFile(rows: seq<ArtifactRow>, list: seq<Artifact>) {
    forall i :: 0 <= i < |list| ==> FindArtifact(rows, list[i].key) == Some(list[i])
  }

  lemma {:induction false} ReportedIsOnFile(rows: seq<ArtifactRow>, j: JobId, a: AttemptId, prefix: string, list: seq<Artifact>)
    requires AddArtifacts(rows, j, a, prefix, list).Rows?
    ensures OnFile(AddArtifacts(rows, j, a, prefix, list).rows, list)
    ensures forall i :: 0 <= i < |list| ==> ArtifactAccepted(prefix, list[i])
    decreases |list|
  {
    if list != [] {
      var more := if FindArtifact(rows, list[0].key).Some? then rows else rows + [ArtifactRow(j, a, list[0])];
      FindAppend(rows, [ArtifactRow(j, a, list[0])], list[0].key);
      FindOne(ArtifactRow(j, a, list[0]), list[0].key);
      ReportedIsOnFile(more, j, a, prefix, list[1..]);
      AddedArtifacts(more, j, a, prefix, list[1..]);
      PrefixExtends(more, AddArtifacts(rows, j, a, prefix, list).rows);
    }
  }

  lemma {:induction false} OnFileAddsNothing(rows: seq<ArtifactRow>, j: JobId, a: AttemptId, prefix: string, list: seq<Artifact>)
    requires OnFile(rows, list) && forall i :: 0 <= i < |list| ==> ArtifactAccepted(prefix, list[i])
    ensures AddArtifacts(rows, j, a, prefix, list) == Rows(rows)
    decreases |list|
  {
    if list != [] {
      assert FindArtifact(rows, list[0].key) == Some(list[0]);
      OnFileAddsNothing(rows, j, a, prefix, list[1..]);
    }
  }

  /** Artifacts once reported can be reported again at any later time: nothing is added. */
  lemma ReportAgainAddsNothing(rows: seq<ArtifactRow>, j: JobId, a: AttemptId, prefix: string, list: seq<Artifact>, later: seq<ArtifactRow>)
    requires AddArtifacts(rows, j, a, prefix, list).Rows? && AddArtifacts(rows, j, a, prefix, list).rows <= later
    ensures AddArtifacts(later, j, a, prefix, list) == Rows(later)
  {
    ReportedIsOnFile(rows, j, a, prefix, list);
    PrefixExtends(AddArtifacts(rows, j, a, prefix, list).rows, later);
    OnFileAddsNothing(later, j, a, prefix, list);
  }

  // ------------------------------------------------------------------ which reports stand

  /** The artifact is well formed and lies under the prefix. */
  predicate WellFormed(prefix: string, art: Artifact) {
    && |prefix| <= |art.key| && art.key[..|prefix|] == prefix
    && (forall i :: 0 <= i < |art.key| - 1 ==> !(art.key[i] == '.' && art.key[i + 1] == '.'))
    && |art.checksum| == 64 && (forall i :: 0 <= i < 64 ==> art.checksum[i] in "0123456789abcdef")
    && 0 <= art.sizeBytes && art.kind in {Checkpoint, Output, Log}
  }

  lemma AcceptedIsWellFormed(prefix: string, art: Artifact)
    ensures ArtifactAccepted(prefix, art) <==> WellFormed(prefix, art)
  {
    if |art.checksum| == 64 {
      forall i | 0 <= i < 64
        ensures art.checksum[i] in "0123456789abcdef" <==> '0' <= art.checksum[i] <= '9' || 'a' <= art.checksum[i] <= 'f'
      {
        HexLetter(art.checksum[i]);
      }
    }
  }

  lemma HexLetter(c: char)
    ensures c in "0123456789abcdef" <==> '0' <= c <= '9' || 'a' <= c <= 'f'
  {
    var hex := "0123456789abcdef";
    if '0' <= c <= '9' { assert hex[c as int - '0' as int] == c; }
    if 'a' <= c <= 'f' { assert hex[10 + c as int - 'a' as int] == c; }
  }

  /** No row of the table says otherwise of the artifact's key. */
  ghost predicate Agreed(rows: seq<ArtifactRow>, art: Artifact) {
    forall i :: 0 <= i < |rows| && rows[i].meta.key == art.key ==> rows[i].meta == art
  }

  /** Every artifact is well formed, and one key stands for one artifact throughout the list and the table. */
  ghost predicate Fileable(rows: seq<ArtifactRow>, prefix: string, list: seq<Artifact>) {
    && (forall i :: 0 <= i < |list| ==> WellFormed(prefix, list[i]) && Agreed(rows, list[i]))
    && (forall i, k :: 0 <= i < k < |list| && list[i].key == list[k].key ==> list[i] == list[k])
  }

  predicate HasKey(rows: seq<ArtifactRow>, key: string) {
    exists i :: 0 <= i < |rows| && rows[i].meta.key == key
  }

  /** Artifact i is the first of the list with its key, and the table has none. */
  predicate BringsObject(rows: seq<ArtifactRow>, list: seq<Artifact>, i: int)
    requires 0 <= i < |list|
  {
    !HasKey(rows, list[i].key) && forall k :: 0 <= k < i ==> list[k].key != list[i].key
  }

  /** The rows a report adds: one for each key it brings, in the order of the list. */
  function Brought(rows: seq<ArtifactRow>, j: JobId, a: AttemptId, list: seq<Artifact>, n: nat): seq<ArtifactRow>
    requires n <= |list|
  {
    if n == 0 then []
    else Brought(rows, j, a, list, n - 1) + if BringsObject(rows, list, n - 1) then [ArtifactRow(j, a, list[n - 1])] else []
  }

  lemma {:induction false} FoundIs(rows: seq<ArtifactRow>, art: Artifact)
    requires DistinctObjects(rows)
    ensures FindArtifact(rows, art.key).Some? <==> HasKey(rows, art.key)
    ensures FindArtifact(rows, art.key).Some? ==> (FindArtifact(rows, art.key).value == art <==> Agreed(rows, art))
  {
    FindIsThere(rows, art.key);
    if FindArtifact(rows, art.key).Some? { FoundAt(rows, art.key); }
  }

  lemma {:induction false} FoundAt(rows: seq<ArtifactRow>, key: string)
    requires FindArtifact(rows, key).Some?
    ensures exists i :: 0 <= i < |rows| && rows[i].meta.key == key && FindArtifact(rows, key) == Some(rows[i].meta)
  {
    if rows[0].meta.key != key {
      FoundAt(rows[1..], key);
      var i :| 0 <= i < |rows[1..]| && rows[1..][i].meta.key == key && FindArtifact(rows[1..], key) == Some(rows[1..][i].meta);
      assert rows[i + 1].meta == rows[1..][i].meta;
    }
  }

  /** The table after the first artifact of a list has been dealt with. */
  function WithFirst(rows: seq<ArtifactRow>, j: JobId, a: AttemptId, list: seq<Artifact>): seq<ArtifactRow>
    requires list != []
  {
    if HasKey(rows, list[0].key) then rows else rows + [ArtifactRow(j, a, list[0])]
  }

  lemma FirstFiled(rows: seq<ArtifactRow>, j: JobId, a: AttemptId, list: seq<Artifact>)
    requires list != [] && DistinctObjects(rows)
    ensures DistinctObjects(WithFirst(rows, j, a, list))
    ensures forall key :: HasKey(WithFirst(rows, j, a, list), key) <==> HasKey(rows, key) || key == list[0].key
  {
    var next := WithFirst(rows, j, a, list);
    forall key | HasKey(rows, key) || key == list[0].key ensures HasKey(next, key) {
      if HasKey(rows, key) {
        var i :| 0 <= i < |rows| && rows[i].meta.key == key;
        assert next[i].meta.key == key;
      } else {
        assert next[|rows|].meta.key == key;
      }
    }
  }

  lemma FileableRest(rows: seq<ArtifactRow>, j: JobId, a: AttemptId, prefix: string, list: seq<Artifact>)
    requires list != [] && WellFormed(prefix, list[0]) && Agreed(rows, list[0])
    ensures Fileable(WithFirst(rows, j, a, list), prefix, list[1..]) <==> Fileable(rows, prefix, list)
  {
    var next, rest := WithFirst(rows, j, a, list), list[1..];
    if Fileable(rows, prefix, list) {
      forall i | 0 <= i < |rest| ensures WellFormed(prefix, rest[i]) && Agreed(next, rest[i]) {
        assert list[i + 1] == rest[i];
        assert Agreed(rows, list[i + 1]);
      }
      forall i, k | 0 <= i < k < |rest| && rest[i].key == rest[k].key ensures rest[i] == rest[k] {
        assert list[i + 1].key == list[k + 1].key;
      }
    }
    if Fileable(next, prefix, rest) { FileableAll(rows, j, a, prefix, list); }
  }

  lemma FileableAll(rows: seq<ArtifactRow>, j: JobId, a: AttemptId, prefix: string, list: seq<Artifact>)
    requires list != [] && WellFormed(prefix, list[0]) && Agreed(rows, list[0])
    requires Fileable(WithFirst(rows, j, a, list), prefix, list[1..])
    ensures Fileable(rows, prefix, list)
  {
    var next, rest := WithFirst(rows, j, a, list), list[1..];
    forall i | 0 < i < |list| ensures WellFormed(prefix, list[i]) && Agreed(rows, list[i]) {
      assert rest[i - 1] == list[i];
      assert Agreed(next, rest[i - 1]);
      forall m | 0 <= m < |rows| && rows[m].meta.key == list[i].key ensures rows[m].meta == list[i] {
        assert next[m] == rows[m];
      }
    }
    forall i, k | 0 <= i < k < |list| && list[i].key == list[k].key ensures list[i] == list[k] {
      if i > 0 {
        assert rest[i - 1].key == rest[k - 1].key;
      } else {
        assert Agreed(next, rest[k - 1]);
        FirstIsThere(rows, j, a, list);
      }
    }
  }

  lemma FirstIsThere(rows: seq<ArtifactRow>, j: JobId, a: AttemptId, list: seq<Artifact>)
    requires list != [] && Agreed(rows, list[0])
    ensures exists m :: 0 <= m < |WithFirst(rows, j, a, list)| && WithFirst(rows, j, a, list)[m].meta == list[0]
  {
    if HasKey(rows, list[0].key) {
      var m :| 0 <= m < |rows| && rows[m].meta.key == list[0].key;
      assert WithFirst(rows, j, a, list)[m].meta == list[0];
    } else {
      assert WithFirst(rows, j, a, list)[|rows|].meta == list[0];
    }
  }

  lemma BringsObjectLater(rows: seq<ArtifactRow>, j: JobId, a: AttemptId, list: seq<Artifact>, i: int)
    requires 0 < i < |list| && DistinctObjects(rows)
    ensures BringsObject(WithFirst(rows, j, a, list), list[1..], i - 1) <==> BringsObject(rows, list, i)
  {
    FirstFiled(rows, j, a, list);
    var next := WithFirst(rows, j, a, list);
    if BringsObject(rows, list, i) {
      forall k | 0 <= k < i - 1 ensures list[1..][k].key != list[1..][i - 1].key { assert list[k + 1].key != list[i].key; }
    }
    if BringsObject(next, list[1..], i - 1) {
      forall k | 0 <= k < i ensures list[k].key != list[i].key {
        if k > 0 { assert list[1..][k - 1].key != list[1..][i - 1].key; }
      }
    }
  }

  lemma {:induction false} BroughtFirst(rows: seq<ArtifactRow>, j: JobId, a: AttemptId, list: seq<Artifact>, n: nat)
    requires 0 < n <= |list| && DistinctObjects(rows)
    ensures rows + Brought(rows, j, a, list, n)
         == WithFirst(rows, j, a, list) + Brought(WithFirst(rows, j, a, list), j, a, list[1..], n - 1)
  {
    if n > 1 {
      BroughtFirst(rows, j, a, list, n - 1);
      BringsObjectLater(rows, j, a, list, n - 1);
      var next := WithFirst(rows, j, a, list);
      var last := if BringsObject(rows, list, n - 1) then [ArtifactRow(j, a, list[n - 1])] else [];
      assert rows + Brought(rows, j, a, list, n) == rows + Brought(rows, j, a, list, n - 1) + last;
      assert next + Brought(next, j, a, list[1..], n - 1) == next + Brought(next, j, a, list[1..], n - 2) + last;
    } else {
      assert Brought(rows, j, a, list, 0) == [];
    }
  }

  /** The loop over a report's artifacts goes through exactly when they are fileable, and then adds one
      row for each object key they bring. */
  lemma {:induction false} ReportFiles(rows: seq<ArtifactRow>, j: JobId, a: AttemptId, prefix: string, list: seq<Artifact>)
    requires DistinctObjects(rows)
    ensures var filed := AddArtifacts(rows, j, a, prefix, list);
            if Fileable(rows, prefix, list) then filed == Rows(rows + Brought(rows, j, a, list, |list|))
            else filed == Bad(Invalid) || filed == Bad(Conflict)
    decreases |list|
  {
    if list != [] {
      AcceptedIsWellFormed(prefix, list[0]);
      FoundIs(rows, list[0]);
      if WellFormed(prefix, list[0]) && Agreed(rows, list[0]) {
        FirstFiled(rows, j, a, list);
        FileableRest(rows, j, a, prefix, list);
        BroughtFirst(rows, j, a, list, |list|);
        ReportFiles(WithFirst(rows, j, a, list), j, a, prefix, list[1..]);
      }
    }
  }
}
