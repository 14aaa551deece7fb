// `SqliteJobRepository` and `JobReaper` as objects, one call at a time: each write method
// is tied to the statements JobProtocol interleaves, and what a whole call does to the
// committed database is stated outright.

module JobRepository {
  import opened Wrappers
  import opened JobProtocol

  const PURGE_BATCH_SIZE: nat := 500

  // SQLite compares `retention_days` against the caller's default when it is NULL.
  predicate Expired(row: Row, retention: map<JobId, int>, j: JobId, now: int, retentionDays: int) {
    row.deletedAt.Some? &&
    now - row.deletedAt.value >= if j in retention then retention[j] else retentionDays
  }

  class SqliteJobRepository {
    var committed: Db
    var working: Db

    constructor ()
      ensures committed == working == EMPTY_DB
    {
      committed, working := EMPTY_DB, EMPTY_DB;
    }

    method Execute(w: Write)
      modifies this`working
      ensures working == ApplyWrite(old(working), w)
    {
      working := ApplyWrite(working, w);
    }

    method Commit()
      modifies this`committed
      ensures committed == working
    {
      committed := working;
    }

    method Rollback()
      modifies this`working
      ensures working == committed
    {
      working := committed;
    }

    // The job-submission unit of work. `failAt` is the statement that raises, the commit
    // being number 2.
    method SubmitJob(j: JobId, row: Row, e: EventId, failAt: Option<nat>) returns (raised: bool)
      requires committed == working
      modifies this
      ensures committed == working
      ensures raised <==> (failAt.Some? && failAt.value <= 2) || j in old(committed.jobs) || e in old(committed.events)
      ensures if raised then committed == old(committed)
              else committed == ApplyWrite(ApplyWrite(old(committed), InsertJob(j, row)), InsertEvent(e, j))
      ensures j !in old(committed.jobs) && e !in old(committed.events) ==>
                (j in committed.jobs <==> e in committed.events)
    {
      // an INSERT of a key that exists raises as well
      if failAt == Some(0) || j in working.jobs {
        Rollback();
        return true;
      }
      Execute(InsertJob(j, row));
      if failAt == Some(1) || e in working.events {
        Rollback();
        return true;
      }
      Execute(InsertEvent(e, j));
      if failAt == Some(2) {
        Rollback();
        return true;
      }
      Commit();
      return false;
    }

    method UpdateJobState(j: JobId, target: JobState, expected: int) returns (updated: Option<Row>)
      requires committed == working
      modifies this
      ensures committed == working == ApplyWrite(old(committed), Cas(j, expected, target, None))
      ensures updated.Some? <==> j in old(committed.jobs) && old(committed.jobs)[j].version == expected
      ensures updated.Some? ==> j in committed.jobs && updated.value == committed.jobs[j]
                                && updated.value.state == target && updated.value.version == expected + 1
      ensures updated.None? ==> committed == old(committed)
      ensures forall k :: k != j ==> (k in committed.jobs <==> k in old(committed.jobs))
                                     && (k in committed.jobs ==> committed.jobs[k] == old(committed.jobs)[k])
    {
      var hit := CasHits(working, Cas(j, expected, target, None));
      Execute(Cas(j, expected, target, None));
      Commit();
      if !hit {
        return None;
      }
      return Some(working.jobs[j]);
    }

    // What other tasks commit while this one waits.
    method Elsewhere(others: seq<Write>)
      requires committed == working
      modifies this
      ensures committed == working == AllWritten(old(committed), others)
    {
      var start := working;
      for i := 0 to |others|
        invariant working == AllWritten(start, others[..i])
      {
        assert others[..i + 1][..i] == others[..i];
        Execute(others[i]);
      }
      assert others[..|others|] == others;
      Commit();
    }

    // Reads the job, then updates it if nobody has changed it `meanwhile`.
    method SoftDeleteJob(j: JobId, now: int, meanwhile: seq<Write>) returns (deleted: Option<Row>)
      requires committed == working
      modifies this
      ensures committed == working
      ensures !Deletable(old(committed), j) ==> deleted.None? && committed == old(committed)
      ensures var terminal := {SUCCEEDED, FAILED, CANCELLED, DEAD_LETTERED};
              var deletable := j in old(committed).jobs && old(committed).jobs[j].state in terminal;
              (deleted.Some? ==> deletable) && (meanwhile == [] && deletable ==> deleted.Some?)
      ensures Deletable(old(committed), j) ==>
                var db := AllWritten(old(committed), meanwhile);
                && (deleted.Some? <==> j in db.jobs && db.jobs[j].version == old(committed).jobs[j].version)
                && committed == (if deleted.None? then db else db.(jobs := db.jobs[j := deleted.value]))
                && (deleted.Some? ==> deleted.value.state == DELETED && deleted.value.deletedAt == Some(now)
                                      && deleted.value.version == old(committed).jobs[j].version + 1)
    {
      if j !in working.jobs || !CanTransition(working.jobs[j].state, DELETED) {
        return None;
      }
      var version := working.jobs[j].version;
      Elsewhere(meanwhile);
      var w := Cas(j, version, DELETED, Some(now));
      var hit := CasHits(working, w);
      Execute(w);
      Commit();
      if !hit {
        return None;
      }
      return Some(working.jobs[j]);
    }

    // RUNNING jobs gone silent, at most `limit` of them, in no particular order.
    method FindStaleJobs(cutoff: int, limit: nat) returns (stale: seq<(JobId, Row)>)
      ensures |stale| <= limit
      ensures forall i :: 0 <= i < |stale| ==>
                && stale[i].0 in working.jobs && stale[i].1 == working.jobs[stale[i].0]
                && stale[i].1.state == RUNNING
                && (stale[i].1.heartbeat == None || stale[i].1.heartbeat.value < cutoff)
      ensures forall i, k :: 0 <= i < k < |stale| ==> stale[i].0 != stale[k].0
      ensures |stale| < limit ==>
                forall j :: j in working.jobs && working.jobs[j].state == RUNNING
                            && (working.jobs[j].heartbeat == None || working.jobs[j].heartbeat.value < cutoff) ==>
                  (j, working.jobs[j]) in stale
    {
      stale := [];
      var left := working.jobs.Keys;
      while left != {} && |stale| < limit
        invariant |stale| <= limit && left <= working.jobs.Keys
        invariant forall i :: 0 <= i < |stale| ==> stale[i].0 in working.jobs && stale[i].0 !in left
                                                   && stale[i].1 == working.jobs[stale[i].0]
                                                   && Stale(stale[i].1, cutoff)
        invariant forall i, k :: 0 <= i < k < |stale| ==> stale[i].0 != stale[k].0
        invariant forall j :: j in working.jobs && Stale(working.jobs[j], cutoff) ==>
                    j in left || (j, working.jobs[j]) in stale
        decreases left
      {
        var j :| j in left;
        left := left - {j};
        if Stale(working.jobs[j], cutoff) {
          stale := stale + [(j, working.jobs[j])];
        }
      }
    }

    // The reaper's loop: one compare-and-set a job, counting those that hit. Other tasks commit
    // `meanwhile(i)` before the i-th; `trace[i]` is the database it finds.
    method FailEach(stale: seq<(JobId, Row)>, meanwhile: nat -> seq<Write>) returns (reaped: nat, ghost trace: seq<Db>)
      requires committed == working
      modifies this
      ensures Traced(old(committed), stale, meanwhile, trace) && |trace| == |stale|
      ensures committed == working == Reached(old(committed), stale, trace)
      ensures reaped == HitCount(stale, trace)
    {
      ghost var start := committed;
      reaped, trace := 0, [];
      for i := 0 to |stale|
        invariant |trace| == i && Traced(start, stale, meanwhile, trace)
        invariant committed == working == Reached(start, stale, trace)
        invariant reaped == HitCount(stale, trace)
      {
        Elsewhere(meanwhile(i));
        assert (trace + [working])[..i] == trace;
        TracedOnce(start, stale, meanwhile, trace, working);
        trace := trace + [working];
        var result := UpdateJobState(stale[i].0, FAILED, stale[i].1.version);
        if result.Some? {
          reaped := reaped + 1;
        }
      }
    }

    // `JobReaper.reap_once`: stale jobs are found, then failed one by one; the count is the number
    // of updates that found the version read. Undisturbed, every stale job found is failed.
    method ReapOnce(cutoff: int, limit: nat, meanwhile: nat -> seq<Write>)
      returns (reaped: nat, ghost stale: seq<(JobId, Row)>, ghost trace: seq<Db>)
      requires committed == working
      modifies this
      ensures |trace| == |stale| <= limit && Traced(old(committed), stale, meanwhile, trace)
      ensures forall i :: 0 <= i < |stale| ==>
                && stale[i].0 in old(committed).jobs && stale[i].1 == old(committed).jobs[stale[i].0]
                && stale[i].1.state == RUNNING
                && (stale[i].1.heartbeat == None || stale[i].1.heartbeat.value < cutoff)
      ensures committed == working == Reached(old(committed), stale, trace) && reaped == HitCount(stale, trace)
      ensures Undisturbed(meanwhile) ==>
                && reaped == |stale| && committed == Failing(old(committed), Ids(stale))
                && (reaped < limit ==> forall j :: j in committed.jobs ==> !Stale(committed.jobs[j], cutoff))
                && (forall i :: 0 <= i < |stale| ==>
                      stale[i].0 in committed.jobs
                      && committed.jobs[stale[i].0] == stale[i].1.(state := FAILED, version := stale[i].1.version + 1))
                && var was := old(committed).jobs;
                   forall j :: j in was
                               && (was[j].state != RUNNING
                                   || (was[j].heartbeat.Some? && was[j].heartbeat.value >= cutoff)) ==>
                     j in committed.jobs && committed.jobs[j] == was[j]
    {
      ghost var before := committed;
      var found := FindStaleJobs(cutoff, limit);
      stale := found;
      reaped, trace := FailEach(found, meanwhile);
      if Undisturbed(meanwhile) {
        QuietReap(before, stale, meanwhile, trace);
        assert stale[..|stale|] == stale;
        forall j | reaped < limit && j in before.jobs && Stale(before.jobs[j], cutoff)
          ensures j in Ids(stale)
        {
          assert (j, before.jobs[j]) in stale;
          var k :| 0 <= k < |stale| && stale[k] == (j, before.jobs[j]);
        }
      }
    }

    method FindExpired(rows: seq<JobId>, retention: map<JobId, int>, now: int, retentionDays: int)
      returns (expired: seq<JobId>)
      requires forall i, k :: 0 <= i < k < |rows| ==> rows[i] != rows[k]
      requires forall j :: j in rows <==> j in working.jobs && working.jobs[j].deletedAt.Some?
      ensures forall i, k :: 0 <= i < k < |expired| ==> expired[i] != expired[k]
      ensures Elements(expired) == AllExpired(working, retention, now, retentionDays)
    {
      expired := [];
      for i := 0 to |rows|
        invariant forall j :: j in expired <==>
                    j in rows[..i] && Expired(working.jobs[j], retention, j, now, retentionDays)
        invariant forall i, k :: 0 <= i < k < |expired| ==> expired[i] != expired[k]
      {
        assert rows[i] in rows;
        if Expired(working.jobs[rows[i]], retention, rows[i], now, retentionDays) {
          expired := expired + [rows[i]];
        }
      }
      assert rows[..|rows|] == rows;
    }

    // Batched deletion under one lock: attempts before their jobs in every batch, one commit
    // at the end. The batches together remove exactly the expired jobs and their attempts. When
    // statement number `failAt` raises, what was deleted before stays pending. Others may write
    // `meanwhile`, before the lock is taken; what had expired is deleted all the same.
    method PurgeExpiredJobs(rows: seq<JobId>, retention: map<JobId, int>, now: int, retentionDays: int,
                            meanwhile: seq<Write>, failAt: Option<nat>)
      returns (purged: nat, raised: bool)
      requires committed == working
      requires forall i, k :: 0 <= i < k < |rows| ==> rows[i] != rows[k]
      requires forall j :: j in rows <==> j in working.jobs && working.jobs[j].deletedAt.Some?
      modifies this
      ensures var gone := AllExpired(old(committed), retention, now, retentionDays);
              var db := AllWritten(old(committed), meanwhile);
              && (raised <==> failAt.Some? && failAt.value < 2 * Batches(|gone|))
              && (!raised ==> purged == |gone| && committed == working == Without(db, gone))
              && (raised ==> committed == db && PartlyPurged(db, gone, working))
      // with nobody in between: a marked job goes once its own retention, or else the caller's, is
      // over, the attempts with it, and nothing else changes
      ensures !raised && meanwhile == [] ==>
                && (forall j :: j in old(committed).jobs ==>
                      var at := old(committed).jobs[j].deletedAt;
                      if at.Some? && now >= at.value + (if j in retention then retention[j] else retentionDays)
                      then j !in committed.jobs
                      else j in committed.jobs && committed.jobs[j] == old(committed).jobs[j])
                && committed.jobs.Keys <= old(committed).jobs.Keys && committed.events == old(committed).events
      ensures !raised && meanwhile == [] ==>
                committed.attempts.Keys <= old(committed).attempts.Keys &&
                forall a :: a in old(committed).attempts ==>
                  var j := old(committed).attempts[a];
                  (a in committed.attempts <==> j in committed.jobs || j !in old(committed).jobs)
                  && (a in committed.attempts ==> committed.attempts[a] == j)
    {
      var expired := FindExpired(rows, retention, now, retentionDays);
      DistinctSize(expired);
      Elsewhere(meanwhile);
      purged, raised := DeleteBatches(expired, failAt);
      if !raised {
        Commit();
        PurgeInFields(old(committed), retention, now, retentionDays);
      }
    }

    // Attempts and jobs, batch by batch.
    method DeleteBatches(expired: seq<JobId>, failAt: Option<nat>) returns (purged: nat, raised: bool)
      modifies this`working
      ensures raised <==> failAt.Some? && failAt.value < 2 * Batches(|expired|)
      ensures !raised ==> purged == |expired| && working == Without(old(working), Elements(expired))
      ensures raised ==> PartlyPurged(old(working), Elements(expired), working)
    {
      ghost var before, gone := working, Elements(expired);
      purged := 0;
      var statement := 0;
      assert Without(before, {}) == before;
      while purged < |expired|
        invariant 0 <= purged <= |expired|
        invariant working == Without(before, Elements(expired[..purged]))
        invariant statement == 2 * Batches(purged) && (purged % PURGE_BATCH_SIZE == 0 || purged == |expired|)
        invariant failAt.Some? ==> failAt.value >= statement
      {
        var end := if purged + PURGE_BATCH_SIZE < |expired| then purged + PURGE_BATCH_SIZE else |expired|;
        var batch := expired[purged..end];
        BatchesNext(purged, end, |expired|);
        SliceElements(expired, purged, end);
        if failAt == Some(statement) {
          NothingMore(before, Elements(expired[..purged]), gone);
          return purged, true;
        }
        Execute(DeleteAttempts(Elements(batch)));
        if failAt == Some(statement + 1) {
          assert PartlyPurged(before, gone, working);
          return purged, true;
        }
        Execute(DeleteJobs(Elements(batch)));
        WithoutBoth(before, Elements(expired[..purged]), Elements(batch));
        purged, statement := end, statement + 2;
      }
      assert expired[..|expired|] == expired;
      return purged, false;
    }
  }

  // --- Writes of others ---

  function AllWritten(db: Db, ws: seq<Write>): Db {
    if ws == [] then db else ApplyWrite(AllWritten(db, ws[..|ws| - 1]), ws[|ws| - 1])
  }

  predicate Deletable(db: Db, j: JobId) { j in db.jobs && CanTransition(db.jobs[j].state, DELETED) }

  // --- Reaping ---

  function FailWrite(read: (JobId, Row)): Write { Cas(read.0, read.1.version, FAILED, None) }

  // The database after the updates of a trace.
  function Reached(start: Db, stale: seq<(JobId, Row)>, trace: seq<Db>): Db
    requires |trace| <= |stale|
  {
    if trace == [] then start else ApplyWrite(trace[|trace| - 1], FailWrite(stale[|trace| - 1]))
  }

  // Each update finds what the one before left, with the others' writes on top.
  ghost predicate Traced(start: Db, stale: seq<(JobId, Row)>, meanwhile: nat -> seq<Write>, trace: seq<Db>) {
    |trace| <= |stale| &&
    forall i :: 0 <= i < |trace| ==> trace[i] == AllWritten(Reached(start, stale, trace[..i]), meanwhile(i))
  }

  // How many updates find the version they had read.
  function HitCount(stale: seq<(JobId, Row)>, trace: seq<Db>): nat
    requires |trace| <= |stale|
  {
    if trace == [] then 0
    else
      var n := |trace| - 1;
      HitCount(stale, trace[..n]) + if CasHits(trace[n], FailWrite(stale[n])) then 1 else 0
  }

  lemma TracedOnce(start: Db, stale: seq<(JobId, Row)>, meanwhile: nat -> seq<Write>, trace: seq<Db>, db: Db)
    requires Traced(start, stale, meanwhile, trace) && |trace| < |stale|
    requires db == AllWritten(Reached(start, stale, trace), meanwhile(|trace|))
    ensures Traced(start, stale, meanwhile, trace + [db])
  {
    var longer := trace + [db];
    forall i | 0 <= i < |longer| ensures longer[i] == AllWritten(Reached(start, stale, longer[..i]), meanwhile(i)) {
      assert longer[..i] == trace[..i];
      assert trace[..|trace|] == trace;
    }
  }

  ghost predicate Undisturbed(meanwhile: nat -> seq<Write>) { forall i: nat :: meanwhile(i) == [] }

  function Ids(stale: seq<(JobId, Row)>): set<JobId> { set i | 0 <= i < |stale| :: stale[i].0 }

  ghost predicate FreshReads(start: Db, stale: seq<(JobId, Row)>) {
    && (forall i :: 0 <= i < |stale| ==> stale[i].0 in start.jobs && stale[i].1 == start.jobs[stale[i].0])
    && (forall i, k :: 0 <= i < k < |stale| ==> stale[i].0 != stale[k].0)
  }

  // Undisturbed, every update finds its job as it was read.
  lemma QuietStep(start: Db, stale: seq<(JobId, Row)>, n: nat)
    requires FreshReads(start, stale) && n < |stale|
    ensures var db := Failing(start, Ids(stale[..n]));
            CasHits(db, FailWrite(stale[n]))
            && ApplyWrite(db, FailWrite(stale[n])) == Failing(start, Ids(stale[..n + 1]))
  {
    var j := stale[n].0;
    assert stale[..n + 1] == stale[..n] + [stale[n]];
    assert Ids(stale[..n + 1]) == Ids(stale[..n]) + {j};
    assert j !in Ids(stale[..n]);
    FailingOneMore(start, Ids(stale[..n]), j);
  }

  lemma TracedPrefix(start: Db, stale: seq<(JobId, Row)>, meanwhile: nat -> seq<Write>, trace: seq<Db>, n: nat)
    requires Traced(start, stale, meanwhile, trace) && n <= |trace|
    ensures Traced(start, stale, meanwhile, trace[..n])
  {
    assert forall i :: 0 <= i < n ==> trace[..n][..i] == trace[..i];
  }

  lemma {:induction false} QuietReap(start: Db, stale: seq<(JobId, Row)>, meanwhile: nat -> seq<Write>, trace: seq<Db>)
    requires Traced(start, stale, meanwhile, trace) && Undisturbed(meanwhile) && FreshReads(start, stale)
    ensures Reached(start, stale, trace) == Failing(start, Ids(stale[..|trace|])) && HitCount(stale, trace) == |trace|
  {
    if trace == [] {
      assert Failing(start, {}) == start;
    } else {
      var n := |trace| - 1;
      TracedPrefix(start, stale, meanwhile, trace, n);
      QuietReap(start, stale, meanwhile, trace[..n]);
      QuietStep(start, stale, n);
      assert trace[n] == AllWritten(Reached(start, stale, trace[..n]), meanwhile(n));
    }
  }

  function Failing(db: Db, moved: set<JobId>): Db {
    db.(jobs := map j | j in db.jobs ::
          if j in moved then db.jobs[j].(state := FAILED, version := db.jobs[j].version + 1) else db.jobs[j])
  }

  lemma FailingOneMore(db: Db, moved: set<JobId>, j: JobId)
    requires j in db.jobs && j !in moved
    ensures ApplyWrite(Failing(db, moved), Cas(j, db.jobs[j].version, FAILED, None)) == Failing(db, moved + {j})
  {}

  function Without(db: Db, gone: set<JobId>): Db {
    db.(jobs := db.jobs - gone, attempts := map a | a in db.attempts && db.attempts[a] !in gone :: db.attempts[a])
  }

  function AllExpired(db: Db, retention: map<JobId, int>, now: int, retentionDays: int): set<JobId> {
    set j | j in db.jobs && Expired(db.jobs[j], retention, j, now, retentionDays)
  }

  // What is left without the expired jobs, row by row.
  lemma PurgeInFields(db: Db, retention: map<JobId, int>, now: int, retentionDays: int)
    ensures var left := Without(db, AllExpired(db, retention, now, retentionDays));
            && (forall j :: j in db.jobs ==>
                  var at := db.jobs[j].deletedAt;
                  if at.Some? && now >= at.value + (if j in retention then retention[j] else retentionDays)
                  then j !in left.jobs
                  else j in left.jobs && left.jobs[j] == db.jobs[j])
            && left.jobs.Keys <= db.jobs.Keys && left.events == db.events
            && left.attempts.Keys <= db.attempts.Keys
            && forall a :: a in db.attempts ==>
                 var j := db.attempts[a];
                 (a in left.attempts <==> j in left.jobs || j !in db.jobs)
                 && (a in left.attempts ==> left.attempts[a] == j)
  {
  }

  // Some expired jobs are gone with their attempts, and the attempts of some more.
  ghost predicate PartlyPurged(db: Db, gone: set<JobId>, working: Db) {
    exists done: set<JobId>, half: set<JobId> ::
      done <= gone && half <= gone && working == ApplyWrite(Without(db, done), DeleteAttempts(half))
  }

  lemma NothingMore(db: Db, done: set<JobId>, gone: set<JobId>)
    requires done <= gone
    ensures PartlyPurged(db, gone, Without(db, done))
  {
    assert ApplyWrite(Without(db, done), DeleteAttempts({})) == Without(db, done);
  }

  // Batches of n jobs, the last one perhaps short.
  function Batches(n: nat): nat { (n + PURGE_BATCH_SIZE - 1) / PURGE_BATCH_SIZE }

  lemma BatchesNext(from: nat, end: nat, n: nat)
    requires from < n && from % PURGE_BATCH_SIZE == 0
    requires end == if from + PURGE_BATCH_SIZE < n then from + PURGE_BATCH_SIZE else n
    ensures Batches(end) == Batches(from) + 1 <= Batches(n) && (end % PURGE_BATCH_SIZE == 0 || end == n)
  {
  }

  lemma SliceElements(s: seq<JobId>, from: nat, to: nat)
    requires from <= to <= |s|
    ensures Elements(s[..to]) == Elements(s[..from]) + Elements(s[from..to])
    ensures Elements(s[..to]) <= Elements(s)
  {
    assert s[..to] == s[..from] + s[from..to];
    assert s == s[..to] + s[to..];
  }

  lemma WithoutBoth(db: Db, a: set<JobId>, b: set<JobId>)
    ensures ApplyWrite(ApplyWrite(Without(db, a), DeleteAttempts(b)), DeleteJobs(b)) == Without(db, a + b)
  {
    assert (db.jobs - a) - b == db.jobs - (a + b);
  }

  function Elements(s: seq<JobId>): set<JobId> { set j | j in s }

  lemma {:induction false} DistinctSize(s: seq<JobId>)
    requires forall i, k :: 0 <= i < k < |s| ==> s[i] != s[k]
    ensures |Elements(s)| == |s|
  {
    if s != [] {
      var n := |s| - 1;
      DistinctSize(s[..n]);
      assert Elements(s) == Elements(s[..n]) + {s[n]};
      assert s[n] !in Elements(s[..n]);
    }
  }
}
