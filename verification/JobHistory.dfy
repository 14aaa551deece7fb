// What a job row keeps that its version does not tell: the last heartbeat, and the mark of a
// soft deletion. Both outlive the state changes of other clients.

module JobHistory {
  import opened Wrappers
  import opened JobProtocol

  // --- Where the view and the committed database can differ ---

  // A heartbeat has been written and not committed; its task can then only commit.
  predicate Beating(s: State) {
    s.lock.Some? && s.lock.value in s.tasks &&
    var task := s.tasks[s.lock.value];
    task.kind.Plain? && task.done > 0 && task.writes != [] && task.writes[0].Touch?
  }

  ghost predicate SameBeats(a: Db, b: Db) {
    forall j :: j in a.jobs && j in b.jobs ==> a.jobs[j].heartbeat == b.jobs[j].heartbeat
  }

  ghost predicate SameMarks(a: Db, b: Db) {
    forall j :: j in a.jobs && j in b.jobs ==> a.jobs[j].deletedAt == b.jobs[j].deletedAt
  }

  ghost predicate Agree(s: State) {
    (!Beating(s) ==> SameBeats(s.view, s.committed)) && (!BoundToCommit(s) ==> SameMarks(s.view, s.committed))
  }

  // What the lock holder's next statement can be, by what kind of task it is.
  lemma NextWrite(s: State, t: TaskId)
    requires Tidy(s) && CanExecute(s, t)
    ensures var w := s.tasks[t].writes[s.tasks[t].done];
            && !Beating(s) && !BoundToCommit(s)
            && (w.Touch? <==> Beating(Run(s, t))) && (w.Cas? <==> BoundToCommit(Run(s, t)))
  {
    RunExtends(s, t);
    var w := s.tasks[t].writes[s.tasks[t].done];
    assert Shaped(s.tasks[t]) && w in s.tasks[t].writes && s.tasks[t].writes[0] in s.tasks[t].writes;
  }

  lemma WriteAgrees(view: Db, committed: Db, w: Write)
    requires w.InsertJob? ==> w.job !in committed.jobs
    ensures SameBeats(view, committed) && !w.Touch? ==> SameBeats(ApplyWrite(view, w), committed)
    ensures SameMarks(view, committed) && !w.Cas? ==> SameMarks(ApplyWrite(view, w), committed)
  {
  }

  lemma AgreeAfterExecute(s: State, t: TaskId)
    requires Tidy(s) && Versions(s) && Agree(s) && CanExecute(s, t)
    ensures Agree(Run(s, t))
  {
    NextWrite(s, t);
    RunExtends(s, t);
    WriteAgrees(s.view, s.committed, s.tasks[t].writes[s.tasks[t].done]);
  }

  // A task that is about to commit does not raise, unless it is a block, which has neither written
  // a heartbeat nor moved a job.
  lemma RaiseFreely(s: State, t: TaskId)
    requires Tidy(s) && Enabled(s, Raise(t))
    ensures !Beating(s) && !BoundToCommit(s)
  {
    assert Shaped(s.tasks[t]);
    assert s.tasks[t].writes != [] ==> s.tasks[t].writes[0] in s.tasks[t].writes;
  }

  lemma AgreeStep(s: State, step: Step)
    requires Inv(s) && Agree(s) && Enabled(s, step)
    ensures Agree(Apply(s, step))
  {
    match step
    case Execute(t) => AgreeAfterExecute(s, t);
    case Raise(t) => RaiseFreely(s, t);
    case _ =>
  }

  lemma {:induction false} AgreeRun(from: State, steps: seq<Step>, s: State)
    requires Inv(from) && Agree(from) && Leads(from, steps, s)
    ensures Inv(s) && Agree(s)
    decreases |steps|
  {
    if steps != [] {
      InvStep(from, steps[0]);
      AgreeStep(from, steps[0]);
      AgreeRun(Apply(from, steps[0]), steps[1..], s);
    }
  }

  // --- Heartbeats ---

  ghost predicate LastHeard(s: State, j: JobId, heartbeat: Option<int>) {
    && j in s.inserted
    && (j in s.view.jobs ==> s.view.jobs[j].heartbeat == heartbeat)
    && (!Beating(s) && j in s.committed.jobs ==> s.committed.jobs[j].heartbeat == heartbeat)
  }

  // The heartbeat of j a step lands, if it lands one.
  function Landed(s: State, step: Step, j: JobId): seq<int>
    requires Enabled(s, step)
  {
    if !step.Execute? then []
    else
      var w := s.tasks[step.task].writes[s.tasks[step.task].done];
      if w.Touch? && w.job == j && j in s.view.jobs then [w.now] else []
  }

  // All of them, along a list of steps.
  function BeatsOf(from: State, steps: seq<Step>, j: JobId): seq<int>
    decreases |steps|
  {
    if steps == [] || !Enabled(from, steps[0]) then []
    else Landed(from, steps[0], j) + BeatsOf(Apply(from, steps[0]), steps[1..], j)
  }

  function Latest(beats: seq<int>, before: Option<int>): Option<int> {
    if beats == [] then before else Some(beats[|beats| - 1])
  }

  lemma HeardAfterExecute(s: State, t: TaskId, j: JobId, heartbeat: Option<int>)
    requires Tidy(s) && LastHeard(s, j, heartbeat) && CanExecute(s, t)
    ensures LastHeard(Run(s, t), j, Latest(Landed(s, Execute(t), j), heartbeat))
  {
    NextWrite(s, t);
    RunExtends(s, t);
    RunMoves(s, t);
  }

  lemma HeardStep(s: State, step: Step, j: JobId, heartbeat: Option<int>)
    requires Tidy(s) && LastHeard(s, j, heartbeat) && Enabled(s, step)
    ensures LastHeard(Apply(s, step), j, Latest(Landed(s, step, j), heartbeat))
  {
    match step
    case Execute(t) => HeardAfterExecute(s, t, j, heartbeat);
    case Raise(t) => RaiseFreely(s, t);
    case _ =>
  }

  lemma {:induction false} HeardRun(from: State, steps: seq<Step>, s: State, j: JobId, heartbeat: Option<int>)
    requires Tidy(from) && LastHeard(from, j, heartbeat) && Leads(from, steps, s)
    ensures LastHeard(s, j, Latest(BeatsOf(from, steps, j), heartbeat))
    decreases |steps|
  {
    if steps != [] {
      var next := Apply(from, steps[0]);
      TidyStep(from, steps[0]);
      HeardStep(from, steps[0], j, heartbeat);
      HeardRun(next, steps[1..], s, j, Latest(Landed(from, steps[0], j), heartbeat));
    }
  }

  // A row's heartbeat is the last one that landed since any earlier read of it: no state change and
  // no rollback touches it.
  lemma HeartbeatIsLatest(steps: seq<Step>, read: State, more: seq<Step>, s: State, j: JobId)
    requires Leads(INIT, steps, read) && Leads(read, more, s) && j in read.view.jobs && j in s.view.jobs
    ensures s.view.jobs[j].heartbeat == Latest(BeatsOf(read, more, j), read.view.jobs[j].heartbeat)
  {
    AgreeRun(INIT, steps, read);
    HeardRun(read, more, s, j, read.view.jobs[j].heartbeat);
  }

  // The reaper's update looks at the version alone, which a heartbeat leaves as it was. When it
  // hits, the job it fails is still silent exactly when no heartbeat from the cutoff on was the last
  // to land since the reaper read it.
  lemma ReapsLiveExactly(steps: seq<Step>, read: State, decide: Step, wait: seq<Step>, s: State, cutoff: int)
    requires Leads(INIT, steps, read) && AboutToUpdate(read, decide, wait, s) && decide.client.Reaper?
    requires Stale(read.view.jobs[decide.job], cutoff) && Hits(s, decide.task)
    ensures decide.job in s.view.jobs && s.view.jobs[decide.job].state == RUNNING
    ensures var beats := BeatsOf(read, [decide] + wait, decide.job);
            Stale(s.view.jobs[decide.job], cutoff) <==> beats == [] || beats[|beats| - 1] < cutoff
  {
    MissMeansOvertaken(steps, read, decide, wait, s);
    LeadsCons(read, decide, wait, s);
    HeartbeatIsLatest(steps, read, [decide] + wait, s, decide.job);
    HitSameVersion(steps, read, decide, wait, s);
    VersionDeterminesState(steps, read, [decide] + wait, s, decide.job);
  }

  lemma HitSameVersion(steps: seq<Step>, read: State, decide: Step, wait: seq<Step>, s: State)
    requires Leads(INIT, steps, read) && AboutToUpdate(read, decide, wait, s) && Hits(s, decide.task)
    ensures decide.job in s.view.jobs && s.view.jobs[decide.job].version == read.view.jobs[decide.job].version
  {
    MoversRun(INIT, steps, read);
    UpdatePlanned(read, decide, wait, s);
  }

  // The worker is heard of after the reaper has decided, and the reaper goes on to update.
  lemma BeatBetween(read: State, j: JobId, now: int) returns (wait: seq<Step>, s: State)
    requires AtRest(read, 2) && j in read.view.jobs && read.view.jobs[j].state == RUNNING
    ensures AboutToUpdate(read, Decide(2, Reaper, j, FAILED, 0), wait, s)
    ensures s.tasks[2].writes == [Cas(j, read.view.jobs[j].version, FAILED, None)]
    ensures j in s.view.jobs && s.view.jobs[j] == read.view.jobs[j].(heartbeat := Some(now))
  {
    var decided := Apply(read, Decide(2, Reaper, j, FAILED, 0));
    var beat := StartPlain(3, Touch(j, now));
    LeadsSnoc(decided, [], decided, beat);
    var beaten;
    wait, beaten := RunSingle(decided, [] + [beat], Apply(decided, beat), 3, 4);
    LeadsSnoc(decided, wait, beaten, Acquire(2));
    wait, s := wait + [Acquire(2)], Apply(beaten, Acquire(2));
  }

  lemma FailsAsItStands(s: State, t: TaskId, j: JobId)
    requires s.lock == Some(t) && t in s.tasks && s.tasks[t].done == 0 && j in s.view.jobs
    requires s.tasks[t].writes == [Cas(j, s.view.jobs[j].version, FAILED, None)]
    ensures Hits(s, t) && Enabled(s, Execute(t))
    ensures var jobs := Apply(s, Execute(t)).view.jobs;
            j in jobs && jobs[j].state == FAILED && jobs[j].heartbeat == s.view.jobs[j].heartbeat
  {
  }

  // And such a heartbeat can land: the reaper reads a silent job, the worker is heard of, and the
  // reaper's update hits.
  lemma ReaperFailsLiveJob(j: JobId, row: Row, cutoff: int, now: int)
    returns (steps: seq<Step>, read: State, wait: seq<Step>, s: State)
    requires row.state == QUEUED && row.heartbeat == None && now >= cutoff
    ensures Leads(INIT, steps, read) && AboutToUpdate(read, Decide(2, Reaper, j, FAILED, 0), wait, s)
    ensures j in read.view.jobs && Stale(read.view.jobs[j], cutoff) && Hits(s, 2)
    ensures j in s.view.jobs && s.view.jobs[j].heartbeat == Some(now) && !Stale(s.view.jobs[j], cutoff)
    ensures Enabled(s, Execute(2))
    ensures var jobs := Apply(s, Execute(2)).view.jobs;
            j in jobs && jobs[j].state == FAILED && jobs[j].heartbeat == Some(now)
  {
    steps, read := JobInserted(j, row);
    steps, read := DecideAlone(steps, read, 1, Worker, j, RUNNING);
    wait, s := BeatBetween(read, j, now);
    FailsAsItStands(s, 2, j);
  }

  // --- The mark of a soft deletion ---

  ghost predicate Revived(s: State, j: JobId) {
    exists k :: 0 <= k < |s.moves| && s.moves[k].job == j && s.moves[k].from == DELETED
  }

  // Some task was to insert the job with the mark set.
  ghost predicate BornMarked(s: State, j: JobId) {
    exists t, i :: t in s.tasks && 0 <= i < |s.tasks[t].writes| && MarkedInsert(s.tasks[t].writes[i], j)
  }

  predicate MarkedInsert(w: Write, j: JobId) { w.InsertJob? && w.job == j && w.row.deletedAt.Some? }

  ghost predicate MarkExplained(s: State, db: Db) {
    forall j :: j in db.jobs && db.jobs[j].deletedAt.Some? && db.jobs[j].state != DELETED ==>
      Revived(s, j) || BornMarked(s, j)
  }

  // Only updates to DELETED stamp.
  ghost predicate StampsDelete(s: State) {
    forall t :: t in s.tasks && s.tasks[t].kind.Decision? && s.tasks[t].writes != [] ==>
      var w := s.tasks[t].writes[0];
      w.Cas? && w.stamp.Some? ==> w.target == DELETED
  }

  ghost predicate MarksExplained(s: State) {
    StampsDelete(s) && MarkExplained(s, s.view) && (!BoundToCommit(s) ==> MarkExplained(s, s.committed))
  }

  lemma StampsStep(s: State, step: Step)
    requires StampsDelete(s) && Enabled(s, step)
    ensures StampsDelete(Apply(s, step))
  {
    var s' := Apply(s, step);
    forall t | t in s'.tasks && s'.tasks[t].kind.Decision? && s'.tasks[t].writes != []
      ensures var w := s'.tasks[t].writes[0]; w.Cas? && w.stamp.Some? ==> w.target == DELETED
    {
      if t in s.tasks {
        TaskKeptStep(s, step, t);
      }
    }
  }

  lemma ExplanationsStay(s: State, step: Step, j: JobId)
    requires Enabled(s, step)
    ensures Revived(s, j) ==> Revived(Apply(s, step), j)
    ensures BornMarked(s, j) ==> BornMarked(Apply(s, step), j)
  {
    MovesStep(s, step);
    if BornMarked(s, j) {
      var t, i :| t in s.tasks && 0 <= i < |s.tasks[t].writes| && MarkedInsert(s.tasks[t].writes[i], j);
      TaskKeptStep(s, step, t);
    }
  }

  // A statement that leaves a row marked and not deleted found it so, inserts it so, or moves it
  // out of DELETED.
  lemma MarkAfterExecute(s: State, t: TaskId, j: JobId)
    requires Tidy(s) && MarksExplained(s) && CanExecute(s, t)
    requires var db := Run(s, t).view; j in db.jobs && db.jobs[j].deletedAt.Some? && db.jobs[j].state != DELETED
    ensures Revived(Run(s, t), j) || BornMarked(Run(s, t), j)
  {
    var s' := Run(s, t);
    var w := s.tasks[t].writes[s.tasks[t].done];
    RunExtends(s, t);
    ExplanationsStay(s, Execute(t), j);
    assert Shaped(s.tasks[t]) && w in s.tasks[t].writes;
    if w.InsertJob? && w.job == j {
      assert s'.tasks[t].writes[s.tasks[t].done] == w;
    } else if w.Cas? && w.job == j && CasHits(s.view, w) && s.view.jobs[j].state == DELETED {
      assert s'.moves[|s.moves|].job == j && s'.moves[|s.moves|].from == DELETED;
    }
  }

  lemma MarksStep(s: State, step: Step)
    requires Tidy(s) && MarksExplained(s) && Enabled(s, step)
    ensures MarksExplained(Apply(s, step))
  {
    var s' := Apply(s, step);
    StampsStep(s, step);
    forall j { ExplanationsStay(s, step, j); }
    match step
    case Execute(t) =>
      NextWrite(s, t);
      RunExtends(s, t);
      forall j | j in s'.view.jobs && s'.view.jobs[j].deletedAt.Some? && s'.view.jobs[j].state != DELETED
        ensures Revived(s', j) || BornMarked(s', j)
      {
        MarkAfterExecute(s, t, j);
      }
    case Raise(t) => RaiseFreely(s, t);
    case _ =>
  }

  lemma {:induction false} MarksRun(from: State, steps: seq<Step>, s: State)
    requires Tidy(from) && MarksExplained(from) && Leads(from, steps, s)
    ensures MarksExplained(s)
    decreases |steps|
  {
    if steps != [] {
      TidyStep(from, steps[0]);
      MarksStep(from, steps[0]);
      MarksRun(Apply(from, steps[0]), steps[1..], s);
    }
  }

  // A job outside DELETED that carries `deleted_at` was moved out of DELETED by somebody, or was
  // inserted with it.
  lemma MarkedMeansRevived(steps: seq<Step>, s: State, j: JobId)
    requires Leads(INIT, steps, s) && j in s.view.jobs
    requires s.view.jobs[j].deletedAt.Some? && s.view.jobs[j].state != DELETED
    ensures || (exists m :: m in s.moves && m.job == j && m.from == DELETED)
            || (exists t, w :: t in s.tasks && w in s.tasks[t].writes
                               && w.InsertJob? && w.job == j && w.row.deletedAt.Some?)
  {
    MarksRun(INIT, steps, s);
    if Revived(s, j) {
      var k :| 0 <= k < |s.moves| && s.moves[k].job == j && s.moves[k].from == DELETED;
      assert s.moves[k] in s.moves;
    } else {
      var t, i :| t in s.tasks && 0 <= i < |s.tasks[t].writes| && MarkedInsert(s.tasks[t].writes[i], j);
      assert s.tasks[t].writes[i] in s.tasks[t].writes;
    }
  }

  ghost predicate Marked(s: State, j: JobId) {
    && j in s.inserted
    && (j in s.view.jobs ==> s.view.jobs[j].deletedAt.Some?)
    && (!BoundToCommit(s) && j in s.committed.jobs ==> s.committed.jobs[j].deletedAt.Some?)
  }

  lemma MarkedStep(s: State, step: Step, j: JobId)
    requires Tidy(s) && Marked(s, j) && Enabled(s, step)
    ensures Marked(Apply(s, step), j)
  {
    match step
    case Execute(t) =>
      NextWrite(s, t);
      RunExtends(s, t);
      RunMoves(s, t);
    case Raise(t) => RaiseFreely(s, t);
    case _ =>
  }

  lemma {:induction false} MarkedRun(from: State, steps: seq<Step>, s: State, j: JobId)
    requires Tidy(from) && Marked(from, j) && Leads(from, steps, s)
    ensures Marked(s, j)
    decreases |steps|
  {
    if steps != [] {
      TidyStep(from, steps[0]);
      MarkedStep(from, steps[0], j);
      MarkedRun(Apply(from, steps[0]), steps[1..], s, j);
    }
  }

  // Nothing takes the mark away: whatever becomes of the job, the purge, which looks at the mark
  // alone, will count it among the deleted.
  lemma MarkIsForGood(steps: seq<Step>, s: State, more: seq<Step>, later: State, j: JobId)
    requires Leads(INIT, steps, s) && Leads(s, more, later)
    requires j in s.view.jobs && s.view.jobs[j].deletedAt.Some? && j in later.view.jobs
    ensures later.view.jobs[j].deletedAt.Some?
  {
    AgreeRun(INIT, steps, s);
    MarkedRun(s, more, later, j);
  }

  // So a purge removes a job that was soft-deleted and then cancelled.
  lemma PurgesCancelled(j: JobId, row: Row) returns (steps: seq<Step>, s: State, more: seq<Step>, later: State)
    requires row.state == QUEUED
    ensures Leads(INIT, steps, s) && j in s.committed.jobs
    ensures s.committed.jobs[j].state == CANCELLED && s.committed.jobs[j].deletedAt == Some(0)
    ensures Leads(s, more, later) && j !in later.committed.jobs
  {
    steps, s := DeletedThenCancelled(j, row);
    var writes := [DeleteAttempts({j}), DeleteJobs({j})];
    var purge := StartPurge(4, writes);
    var s1 := Apply(s, purge);
    var s2 := s1.(lock := Some(4));
    var s3 := PurgeDeletes(s2, 4, writes);
    RunExtends(s3, 4);
    var s4 := Apply(s3, Execute(4));
    later := Apply(s4, Commit(4));
    more := [Commit(4)] + [];
    LeadsCons(s4, Commit(4), [], later);
    LeadsCons(s3, Execute(4), more, later);
    more := [Execute(4)] + more;
    LeadsCons(s2, Execute(4), more, later);
    more := [Execute(4)] + more;
    LeadsCons(s1, Acquire(4), more, later);
    more := [Acquire(4)] + more;
    LeadsCons(s, purge, more, later);
    more := [purge] + more;
  }
}
