// The job repository on one shared SQLite connection: one implicit transaction, a write
// lock, `transaction()` blocks that roll back, plain writes that only commit, and readers
// that take no lock and so see uncommitted work. Tasks switch at every await.

module JobProtocol {
  import opened Wrappers

  type JobId = string
  type EventId = string
  type TaskId = nat

  datatype JobState = QUEUED | RUNNING | SUCCEEDED | FAILED | CANCELLED | DEAD_LETTERED | DELETED

  predicate CanTransition(from: JobState, to: JobState) {
    match from
    case QUEUED => to == RUNNING || to == CANCELLED || to == DEAD_LETTERED
    case RUNNING => to == SUCCEEDED || to == FAILED || to == CANCELLED
    case FAILED => to == QUEUED || to == DEAD_LETTERED || to == DELETED
    case SUCCEEDED => to == DELETED
    case CANCELLED => to == DELETED
    case DEAD_LETTERED => to == DELETED
    case DELETED => false
  }

  // The diagram read against its arrows: where each state can be entered from.
  lemma EnteredFrom(from: JobState, to: JobState)
    ensures CanTransition(from, to) <==>
            match to
            case QUEUED => from == FAILED
            case RUNNING => from == QUEUED
            case SUCCEEDED => from == RUNNING
            case FAILED => from == RUNNING
            case CANCELLED => from in {QUEUED, RUNNING}
            case DEAD_LETTERED => from in {QUEUED, FAILED}
            case DELETED => from in {SUCCEEDED, FAILED, CANCELLED, DEAD_LETTERED}
  {
  }

  datatype Row = Row(state: JobState, version: int, deletedAt: Option<int>, heartbeat: Option<int>, recordCount: int)

  datatype Db = Db(jobs: map<JobId, Row>, events: map<EventId, JobId>, attempts: map<string, JobId>)

  datatype Write =
    | InsertJob(job: JobId, row: Row)
    | InsertEvent(event: EventId, job: JobId)
    | InsertAttempt(attempt: string, job: JobId)
    | Cas(job: JobId, expected: int, target: JobState, stamp: Option<int>)
      // UPDATE ... WHERE job_id = ? AND version = ?
    | Touch(job: JobId, now: int)                                           // heartbeat
    | SetCount(job: JobId, count: int)
    | DeleteAttempts(gone: set<JobId>)
    | DeleteJobs(gone: set<JobId>)

  predicate CasHits(db: Db, w: Write)
    requires w.Cas?
  {
    w.job in db.jobs && db.jobs[w.job].version == w.expected
  }

  function ApplyWrite(db: Db, w: Write): Db {
    match w
    case InsertJob(j, row) => db.(jobs := db.jobs[j := row])
    case InsertEvent(e, j) => db.(events := db.events[e := j])
    case InsertAttempt(a, j) => db.(attempts := db.attempts[a := j])
    case Cas(j, expected, target, stamp) =>
      if CasHits(db, w) then
        var r := db.jobs[j];
        db.(jobs := db.jobs[j := r.(state := target, version := r.version + 1,
                                    deletedAt := if stamp.Some? then stamp else r.deletedAt)])
      else db
    case Touch(j, now) => if j in db.jobs then db.(jobs := db.jobs[j := db.jobs[j].(heartbeat := Some(now))]) else db
    case SetCount(j, n) => if j in db.jobs then db.(jobs := db.jobs[j := db.jobs[j].(recordCount := n)]) else db
    case DeleteAttempts(gone) => db.(attempts := map a | a in db.attempts && db.attempts[a] !in gone :: db.attempts[a])
    case DeleteJobs(gone) => db.(jobs := db.jobs - gone)
  }

  // --- Tasks ---

  // Who decided on a state change, from the row it had read.
  datatype Client = Reaper | Canceller | SoftDeleter | Worker

  datatype Kind =
    | Transaction                                   // a `transaction()` block
    | Plain                                         // execute, then commit; no rollback
    | Decision(client: Client, basis: JobState)     // a plain compare-and-set planned from a read

  // `done` writes have been executed; `over` once the lock is given back.
  datatype Task = Task(kind: Kind, writes: seq<Write>, done: nat, over: bool)

  datatype Tagged = Tagged(task: TaskId, write: Write)

  function Replay(db: Db, ws: seq<Tagged>): Db {
    if ws == [] then db else ApplyWrite(Replay(db, ws[..|ws|-1]), ws[|ws|-1].write)
  }

  // The writes of one task, in order.
  function Of(ws: seq<Tagged>, t: TaskId): seq<Write> {
    if ws == [] then []
    else Of(ws[..|ws|-1], t) + if ws[|ws|-1].task == t then [ws[|ws|-1].write] else []
  }

  datatype Move = Move(task: TaskId, client: Client, job: JobId, from: JobState, to: JobState)

  // `view` is what every statement on the connection sees: the committed database plus
  // `pending`. The fields from `inserted` on record history: who inserted which job and event
  // row, the state every version of a job was seen in, what was committed, who moved a job.
  datatype State = State(
    committed: Db,
    view: Db,
    pending: seq<Tagged>,
    lock: Option<TaskId>,
    tasks: map<TaskId, Task>,
    inserted: map<JobId, TaskId>,
    announced: map<EventId, TaskId>,
    seen: map<(JobId, int), JobState>,
    log: seq<Tagged>,
    moves: seq<Move>
  )

  const EMPTY_DB := Db(map[], map[], map[])
  const INIT := State(EMPTY_DB, EMPTY_DB, [], None, map[], map[], map[], map[], [], [])

  datatype Step =
    | StartTransaction(task: TaskId, writes: seq<Write>)
    | StartPlain(task: TaskId, write: Write)
    | StartPurge(task: TaskId, writes: seq<Write>)
    | Decide(task: TaskId, client: Client, job: JobId, target: JobState, now: int)  // read, then plan
    | Acquire(task: TaskId)
    | Execute(task: TaskId)
    | Commit(task: TaskId)
    | Raise(task: TaskId)

  // The repository's own inserts are the only writes that join a `transaction()` block.
  predicate IsInsert(w: Write) { w.InsertJob? || w.InsertEvent? }
  predicate IsDelete(w: Write) { w.DeleteAttempts? || w.DeleteJobs? }

  // A running job that has not been heard of since the cutoff, which is what the reaper looks for.
  predicate Stale(row: Row, cutoff: int) {
    row.state == RUNNING && (row.heartbeat == None || row.heartbeat.value < cutoff)
  }

  // What each client accepts to act on, and what it writes. The worker looks at nothing.
  predicate Accepts(client: Client, from: JobState, to: JobState) {
    match client
    case Reaper => from == RUNNING && to == FAILED
    case Canceller =>
      from != SUCCEEDED && from != FAILED && from != CANCELLED && from != DEAD_LETTERED && to == CANCELLED
    case SoftDeleter => CanTransition(from, DELETED) && to == DELETED
    case Worker => true
  }

  // The next statement of the lock holder; an INSERT of an existing key raises instead, and
  // job and event ids are never issued twice.
  predicate CanExecute(s: State, t: TaskId) {
    && s.lock == Some(t) && t in s.tasks && s.tasks[t].done < |s.tasks[t].writes|
    && match s.tasks[t].writes[s.tasks[t].done]
       case InsertJob(j, _) => j !in s.inserted
       case InsertEvent(e, _) => e !in s.announced
       case InsertAttempt(a, _) => a !in s.view.attempts
       case _ => true
  }

  predicate Enabled(s: State, step: Step) {
    match step
    case StartTransaction(t, ws) => t !in s.tasks && forall w :: w in ws ==> IsInsert(w)
    case StartPlain(t, w) => t !in s.tasks && !w.Cas? && !IsDelete(w)
    case StartPurge(t, ws) => t !in s.tasks && forall w :: w in ws ==> IsDelete(w)
    case Decide(t, client, j, target, _) =>
      t !in s.tasks && j in s.view.jobs && Accepts(client, s.view.jobs[j].state, target)
    case Acquire(t) => s.lock == None && t in s.tasks && !s.tasks[t].over
    case Execute(t) => CanExecute(s, t)
    case Commit(t) => s.lock == Some(t) && t in s.tasks && s.tasks[t].done == |s.tasks[t].writes|
    case Raise(t) =>
      // outside `transaction()` only a statement raises, never the commit
      s.lock == Some(t) && t in s.tasks && (s.tasks[t].kind.Transaction? || s.tasks[t].done < |s.tasks[t].writes|)
  }

  function Remember(seen: map<(JobId, int), JobState>, db: Db, j: JobId): map<(JobId, int), JobState> {
    if j in db.jobs then seen[(j, db.jobs[j].version) := db.jobs[j].state] else seen
  }

  function Run(s: State, t: TaskId): State
    requires CanExecute(s, t)
  {
    var task := s.tasks[t];
    var w := task.writes[task.done];
    var view := ApplyWrite(s.view, w);
    var s1 := s.(view := view, pending := s.pending + [Tagged(t, w)],
                 tasks := s.tasks[t := task.(done := task.done + 1)]);
    match w
    case InsertJob(j, _) => s1.(inserted := s.inserted[j := t], seen := Remember(s.seen, view, j))
    case InsertEvent(e, _) => s1.(announced := s.announced[e := t])
    case Cas(j, _, target, _) =>
      if CasHits(s.view, w) then
        s1.(seen := Remember(s.seen, view, j),
            moves := if !task.kind.Decision? then s.moves
                     else s.moves + [Move(t, task.kind.client, j, s.view.jobs[j].state, target)])
      else s1
    case _ => s1
  }

  function Release(s: State, t: TaskId): State
    requires t in s.tasks
  {
    s.(lock := None, tasks := s.tasks[t := s.tasks[t].(over := true)])
  }

  function Apply(s: State, step: Step): State
    requires Enabled(s, step)
  {
    match step
    case StartTransaction(t, ws) => s.(tasks := s.tasks[t := Task(Transaction, ws, 0, false)])
    case StartPlain(t, w) => s.(tasks := s.tasks[t := Task(Plain, [w], 0, false)])
    case StartPurge(t, ws) => s.(tasks := s.tasks[t := Task(Plain, ws, 0, false)])
    case Decide(t, client, j, target, now) =>
      var r := s.view.jobs[j];
      var w := Cas(j, r.version, target, if client.SoftDeleter? then Some(now) else None);
      s.(tasks := s.tasks[t := Task(Decision(client, r.state), [w], 0, false)])
    case Acquire(t) => s.(lock := Some(t))
    case Execute(t) => Run(s, t)
    case Commit(t) => Release(s, t).(committed := s.view, log := s.log + s.pending, pending := [])
    case Raise(t) =>
      if s.tasks[t].kind.Transaction? then Release(s, t).(view := s.committed, pending := [])
      else Release(s, t)
  }

  ghost predicate Leads(from: State, steps: seq<Step>, s: State)
    decreases |steps|
  {
    if steps == [] then s == from
    else Enabled(from, steps[0]) && Leads(Apply(from, steps[0]), steps[1..], s)
  }

  // --- Invariant 1: the connection ---

  ghost predicate Shaped(task: Task) {
    && task.done <= |task.writes|
    && match task.kind
       case Transaction => forall w :: w in task.writes ==> IsInsert(w)
       case Plain =>
         (|task.writes| == 1 && !task.writes[0].Cas? && !IsDelete(task.writes[0]))
         || forall w :: w in task.writes ==> IsDelete(w)
       case Decision(_, _) => |task.writes| == 1 && task.writes[0].Cas?
  }

  ghost predicate Tidy(s: State) {
    && s.view == Replay(s.committed, s.pending)
    && s.committed == Replay(EMPTY_DB, s.log)
    && (s.lock.Some? ==> s.lock.value in s.tasks && !s.tasks[s.lock.value].over)
    && (forall t :: t in s.tasks ==> Shaped(s.tasks[t]))
    && (forall t :: t in s.tasks && !s.tasks[t].over && s.lock != Some(t) ==> s.tasks[t].done == 0)
  }

  lemma {:induction false} ReplayConcat(db: Db, a: seq<Tagged>, b: seq<Tagged>)
    ensures Replay(db, a + b) == Replay(Replay(db, a), b)
  {
    if b == [] {
      assert a + b == a;
    } else {
      assert (a + b)[..|a + b| - 1] == a + b[..|b|-1];
      ReplayConcat(db, a, b[..|b|-1]);
    }
  }

  lemma {:induction false} OfConcat(a: seq<Tagged>, b: seq<Tagged>, t: TaskId)
    ensures Of(a + b, t) == Of(a, t) + Of(b, t)
  {
    if b == [] {
      assert a + b == a;
    } else {
      assert (a + b)[..|a + b| - 1] == a + b[..|b|-1];
      OfConcat(a, b[..|b|-1], t);
    }
  }

  // What a statement of task t does to the connection.
  ghost predicate Extended(s: State, s': State, t: TaskId)
    requires t in s.tasks && s.tasks[t].done < |s.tasks[t].writes|
  {
    var task := s.tasks[t];
    var w := task.writes[task.done];
    && s'.committed == s.committed && s'.log == s.log && s'.lock == s.lock == Some(t)
    && s'.view == ApplyWrite(s.view, w) && s'.pending == s.pending + [Tagged(t, w)]
    && s'.tasks == s.tasks[t := task.(done := task.done + 1)]
  }

  lemma RunExtends(s: State, t: TaskId)
    requires CanExecute(s, t)
    ensures Extended(s, Run(s, t), t)
  {}

  lemma TidyAfterExecute(s: State, s': State, t: TaskId)
    requires Tidy(s) && t in s.tasks && s.tasks[t].done < |s.tasks[t].writes| && Extended(s, s', t)
    ensures Tidy(s')
  {
    assert s'.pending[..|s.pending|] == s.pending;
    assert Shaped(s.tasks[t]);
  }

  lemma TidyStep(s: State, step: Step)
    requires Tidy(s) && Enabled(s, step)
    ensures Tidy(Apply(s, step))
  {
    match step
    case Execute(t) =>
      RunExtends(s, t);
      TidyAfterExecute(s, Run(s, t), t);
    case Commit(t) => ReplayConcat(EMPTY_DB, s.log, s.pending);
    case Raise(t) =>
    case Acquire(t) =>
    case _ => TidyAfterStart(s, step);
  }

  lemma TidyAfterStart(s: State, step: Step)
    requires Tidy(s) && Enabled(s, step)
    requires step.StartTransaction? || step.StartPlain? || step.StartPurge? || step.Decide?
    ensures Tidy(Apply(s, step))
  {
    var s' := Apply(s, step);
    assert s' == s.(tasks := s'.tasks) && s'.tasks == s.tasks[step.task := s'.tasks[step.task]];
    assert Shaped(s'.tasks[step.task]) && s'.tasks[step.task].done == 0;
  }

  // --- Invariant 2: blocks ---

  // What of task `t` is in the log and pending: nothing and its first statements while it
  // runs; all of it or nothing in the log once a transaction is over.
  ghost predicate Block(s: State, t: TaskId) {
    if t !in s.tasks then Of(s.log, t) == [] && Of(s.pending, t) == []
    else
      var task := s.tasks[t];
      if !task.over then
        Of(s.log, t) == [] && task.done <= |task.writes| && Of(s.pending, t) == task.writes[..task.done]
      else
        task.kind.Transaction? ==> Of(s.pending, t) == [] && (Of(s.log, t) == [] || Of(s.log, t) == task.writes)
  }

  ghost predicate Blocks(s: State) {
    forall t: TaskId :: Block(s, t)
  }

  lemma BlockAfterExecute(s: State, s': State, t: TaskId, u: TaskId)
    requires t in s.tasks && s.tasks[t].done < |s.tasks[t].writes| && !s.tasks[t].over
    requires Block(s, u) && Extended(s, s', t)
    ensures Block(s', u)
  {
    var task := s.tasks[t];
    var w := task.writes[task.done];
    assert s'.pending[..|s.pending|] == s.pending;
    if u == t {
      assert task.writes[..task.done + 1] == task.writes[..task.done] + [w];
    }
  }

  lemma BlockAfterCommit(s: State, t: TaskId, u: TaskId)
    requires Tidy(s) && Block(s, u) && Enabled(s, Commit(t))
    ensures Block(Apply(s, Commit(t)), u)
  {
    OfConcat(s.log, s.pending, u);
    if u == t {
      assert s.tasks[t].writes[..|s.tasks[t].writes|] == s.tasks[t].writes;
    }
  }

  lemma BlocksStep(s: State, step: Step)
    requires Tidy(s) && Blocks(s) && Enabled(s, step)
    ensures Blocks(Apply(s, step))
  {
    forall u: TaskId
      ensures Block(Apply(s, step), u)
    {
      assert Block(s, u);
      match step
      case Execute(t) =>
        RunExtends(s, t);
        BlockAfterExecute(s, Run(s, t), t, u);
      case Commit(t) => BlockAfterCommit(s, t, u);
      case _ =>
    }
  }

  // --- Invariant 3: versions ---

  // Every row of `db` was seen in the state it has, at the highest version seen of its job.
  ghost predicate Newest(s: State, db: Db) {
    && (forall j :: j in db.jobs ==>
          (j, db.jobs[j].version) in s.seen && s.seen[(j, db.jobs[j].version)] == db.jobs[j].state)
    && (forall j, v :: (j, v) in s.seen && j in db.jobs ==> v <= db.jobs[j].version)
    && (forall j :: j in db.jobs ==> j in s.inserted)
  }

  // Once a compare-and-set has run, its task can only commit.
  predicate BoundToCommit(s: State) {
    s.lock.Some? && s.lock.value in s.tasks && s.tasks[s.lock.value].kind.Decision? && s.tasks[s.lock.value].done > 0
  }

  // A planned compare-and-set names a version that was seen in the state it was planned on.
  ghost predicate Grounded(task: Task, seen: map<(JobId, int), JobState>) {
    task.kind.Decision? && task.writes != [] && task.writes[0].Cas? ==>
      var w := task.writes[0];
      (w.job, w.expected) in seen && seen[(w.job, w.expected)] == task.kind.basis
      && Accepts(task.kind.client, task.kind.basis, w.target)
  }

  ghost predicate Versions(s: State) {
    && Newest(s, s.view)
    && (!BoundToCommit(s) ==> Newest(s, s.committed))
    && (forall j, v :: (j, v) in s.seen ==> j in s.inserted)
    && (forall t :: t in s.tasks ==> Grounded(s.tasks[t], s.seen))
    && (forall k :: 0 <= k < |s.moves| ==> Accepts(s.moves[k].client, s.moves[k].from, s.moves[k].to))
  }

  lemma NewestAfterCas(s: State, w: Write, seen: map<(JobId, int), JobState>)
    requires Newest(s, s.view) && w.Cas? && CasHits(s.view, w)
    requires seen == Remember(s.seen, ApplyWrite(s.view, w), w.job)
    ensures Newest(s.(seen := seen), ApplyWrite(s.view, w))
    ensures forall key :: key in s.seen ==> key in seen && seen[key] == s.seen[key]
    ensures forall j, v :: (j, v) in seen && (j, v) !in s.seen ==> j == w.job
  {
    assert (w.job, w.expected + 1) !in s.seen;
  }

  lemma NewestAfterInsert(s: State, db: Db, j: JobId, row: Row, t: TaskId)
    requires Newest(s, db) && j !in s.inserted && (forall k, v :: (k, v) in s.seen ==> k in s.inserted)
    ensures var s' := s.(seen := s.seen[(j, row.version) := row.state], inserted := s.inserted[j := t]);
            Newest(s', db) && Newest(s', ApplyWrite(db, InsertJob(j, row)))
  {}

  lemma NewestAfterOther(s: State, db: Db, w: Write)
    requires Newest(s, db) && !w.InsertJob? && (w.Cas? ==> !CasHits(db, w))
    ensures Newest(s, ApplyWrite(db, w))
  {}

  lemma NewestAfterExecute(s: State, t: TaskId)
    requires Tidy(s) && Versions(s) && CanExecute(s, t)
    ensures Newest(Run(s, t), Run(s, t).view)
    ensures forall key :: key in s.seen ==> key in Run(s, t).seen && Run(s, t).seen[key] == s.seen[key]
  {
    var w := s.tasks[t].writes[s.tasks[t].done];
    if w.InsertJob? {
      NewestAfterInsert(s, s.view, w.job, w.row, t);
    } else if w.Cas? && CasHits(s.view, w) {
      NewestAfterCas(s, w, Run(s, t).seen);
    } else {
      NewestAfterOther(s, s.view, w);
    }
  }

  lemma CommittedNewestAfterExecute(s: State, t: TaskId)
    requires Tidy(s) && Versions(s) && CanExecute(s, t)
    ensures !BoundToCommit(Run(s, t)) ==> Newest(Run(s, t), s.committed)
  {
    var w := s.tasks[t].writes[s.tasks[t].done];
    assert w in s.tasks[t].writes;
    if !s.tasks[t].kind.Decision? {
      assert !w.Cas?;
      assert !BoundToCommit(s) && Newest(s, s.committed);
      if w.InsertJob? {
        assert w.job !in s.committed.jobs;
      }
    }
  }

  lemma MovesAfterExecute(s: State, t: TaskId)
    requires Tidy(s) && Versions(s) && CanExecute(s, t)
    ensures var moves := Run(s, t).moves;
            forall k :: 0 <= k < |moves| ==> Accepts(moves[k].client, moves[k].from, moves[k].to)
  {
    var w := s.tasks[t].writes[s.tasks[t].done];
    if w.Cas? && CasHits(s.view, w) && s.tasks[t].kind.Decision? {
      assert Shaped(s.tasks[t]) && Grounded(s.tasks[t], s.seen);
      assert s.tasks[t].kind.basis == s.view.jobs[w.job].state;
    }
  }

  lemma TasksAfterExecute(s: State, t: TaskId)
    requires Tidy(s) && Versions(s) && CanExecute(s, t)
    ensures forall u :: u in Run(s, t).tasks ==> Grounded(Run(s, t).tasks[u], Run(s, t).seen)
  {
    var s' := Run(s, t);
    NewestAfterExecute(s, t);
    RunExtends(s, t);
    forall u | u in s'.tasks
      ensures Grounded(s'.tasks[u], s'.seen)
    {
      GroundedStays(s.tasks[u], s'.tasks[u], s.seen, s'.seen);
    }
  }

  lemma GroundedStays(task: Task, task': Task, seen: map<(JobId, int), JobState>, seen': map<(JobId, int), JobState>)
    requires Grounded(task, seen) && task'.kind == task.kind && task'.writes == task.writes
    requires forall key :: key in seen ==> key in seen' && seen'[key] == seen[key]
    ensures Grounded(task', seen')
  {}

  lemma SeenAfterExecute(s: State, t: TaskId)
    requires Versions(s) && CanExecute(s, t)
    ensures forall j, v :: (j, v) in Run(s, t).seen ==> j in Run(s, t).inserted
  {}

  lemma VersionsStep(s: State, step: Step)
    requires Tidy(s) && Versions(s) && Enabled(s, step)
    ensures Versions(Apply(s, step))
    ensures forall key :: key in s.seen ==> key in Apply(s, step).seen && Apply(s, step).seen[key] == s.seen[key]
  {
    match step
    case Execute(t) =>
      NewestAfterExecute(s, t);
      CommittedNewestAfterExecute(s, t);
      TasksAfterExecute(s, t);
      SeenAfterExecute(s, t);
      MovesAfterExecute(s, t);
    case Commit(t) => VersionsAfterEnd(s, step);
    case Raise(t) => VersionsAfterEnd(s, step);
    case _ => VersionsAfterStart(s, step);
  }

  lemma VersionsAfterStart(s: State, step: Step)
    requires Tidy(s) && Versions(s) && Enabled(s, step) && !step.Execute? && !step.Commit? && !step.Raise?
    ensures Versions(Apply(s, step)) && Apply(s, step).seen == s.seen
  {
    var s' := Apply(s, step);
    assert s'.view == s.view && s'.committed == s.committed && s'.inserted == s.inserted && s'.moves == s.moves;
    assert BoundToCommit(s) == BoundToCommit(s');
    forall u | u in s'.tasks
      ensures Grounded(s'.tasks[u], s'.seen)
    {
      if u in s.tasks { assert Grounded(s.tasks[u], s.seen); }
    }
  }

  lemma NewestAfterEnd(s: State, step: Step)
    requires Tidy(s) && Versions(s) && Enabled(s, step) && (step.Commit? || step.Raise?)
    ensures Newest(s, Apply(s, step).view) && Newest(s, Apply(s, step).committed)
  {
    if step.Raise? {
      assert Shaped(s.tasks[step.task]);
      assert !BoundToCommit(s);
    }
  }

  lemma GroundedAfterEnd(s: State, step: Step)
    requires Versions(s) && Enabled(s, step) && (step.Commit? || step.Raise?)
    ensures forall u :: u in Apply(s, step).tasks ==> Grounded(Apply(s, step).tasks[u], s.seen)
  {
    var s' := Apply(s, step);
    forall u | u in s'.tasks
      ensures Grounded(s'.tasks[u], s.seen)
    {
      GroundedStays(s.tasks[u], s'.tasks[u], s.seen, s.seen);
    }
  }

  lemma VersionsAfterEnd(s: State, step: Step)
    requires Tidy(s) && Versions(s) && Enabled(s, step) && (step.Commit? || step.Raise?)
    ensures Versions(Apply(s, step)) && Apply(s, step).seen == s.seen
  {
    var s' := Apply(s, step);
    NewestAfterEnd(s, step);
    GroundedAfterEnd(s, step);
    assert s'.seen == s.seen && s'.inserted == s.inserted && s'.moves == s.moves;
  }

  // --- Invariant 4: who inserted what ---

  ghost predicate OwnedIn(s: State, ws: seq<Tagged>) {
    forall i :: 0 <= i < |ws| ==>
      && (ws[i].write.InsertJob? ==> ws[i].write.job in s.inserted && s.inserted[ws[i].write.job] == ws[i].task)
      && (ws[i].write.InsertEvent? ==> ws[i].write.event in s.announced && s.announced[ws[i].write.event] == ws[i].task)
  }

  ghost predicate Owned(s: State) {
    OwnedIn(s, s.log) && OwnedIn(s, s.pending)
  }

  // Owners are never replaced.
  ghost predicate OwnersKept(s: State, s': State) {
    && (forall j :: j in s.inserted ==> j in s'.inserted && s'.inserted[j] == s.inserted[j])
    && (forall e :: e in s.announced ==> e in s'.announced && s'.announced[e] == s.announced[e])
  }

  lemma OwnedKept(s: State, s': State, ws: seq<Tagged>)
    requires OwnedIn(s, ws) && OwnersKept(s, s')
    ensures OwnedIn(s', ws)
  {}

  lemma OwnedAfterExecute(s: State, t: TaskId)
    requires Owned(s) && CanExecute(s, t)
    ensures Owned(Run(s, t))
  {
    var s' := Run(s, t);
    var w := s.tasks[t].writes[s.tasks[t].done];
    assert OwnersKept(s, s');
    OwnedKept(s, s', s.log);
    OwnedKept(s, s', s.pending);
    assert OwnedIn(s', [Tagged(t, w)]);
    assert s'.log == s.log && s'.pending == s.pending + [Tagged(t, w)];
    OwnedConcat(s', s.pending, [Tagged(t, w)]);
  }

  lemma OwnedConcat(s: State, a: seq<Tagged>, b: seq<Tagged>)
    requires OwnedIn(s, a) && OwnedIn(s, b)
    ensures OwnedIn(s, a + b)
  {}

  lemma OwnedStep(s: State, step: Step)
    requires Owned(s) && Enabled(s, step)
    ensures Owned(Apply(s, step))
  {
    match step
    case Execute(t) => OwnedAfterExecute(s, t);
    case Commit(t) =>
      OwnedConcat(s, s.log, s.pending);
      OwnedKept(s, Apply(s, step), s.log + s.pending);
    case _ =>
      var s' := Apply(s, step);
      assert OwnersKept(s, s') && s'.log == s.log && (s'.pending == s.pending || s'.pending == []);
      OwnedKept(s, s', s.log);
      OwnedKept(s, s', s'.pending);
  }

  ghost predicate Inv(s: State) {
    Tidy(s) && Blocks(s) && Versions(s) && Owned(s)
  }

  lemma InvStep(s: State, step: Step)
    requires Inv(s) && Enabled(s, step)
    ensures Inv(Apply(s, step))
    ensures forall key :: key in s.seen ==> key in Apply(s, step).seen && Apply(s, step).seen[key] == s.seen[key]
  {
    TidyStep(s, step);
    BlocksStep(s, step);
    VersionsStep(s, step);
    OwnedStep(s, step);
  }

  lemma {:induction false} InvRun(from: State, steps: seq<Step>, s: State)
    requires Inv(from) && Leads(from, steps, s)
    ensures Inv(s)
    ensures forall key :: key in from.seen ==> key in s.seen && s.seen[key] == from.seen[key]
    decreases |steps|
  {
    if steps != [] {
      InvStep(from, steps[0]);
      InvRun(Apply(from, steps[0]), steps[1..], s);
    }
  }

  // --- Theorems over all runs ---

  // All of a transaction's writes are committed, in order, or none is.
  lemma TransactionAtomic(steps: seq<Step>, s: State, t: TaskId)
    requires Leads(INIT, steps, s) && t in s.tasks && s.tasks[t].kind.Transaction?
    ensures Of(s.log, t) == [] || Of(s.log, t) == s.tasks[t].writes
    ensures s.committed == Replay(EMPTY_DB, s.log)
  {
    InvRun(INIT, steps, s);
    assert Block(s, t);
  }

  lemma {:induction false} TaskWrote(ws: seq<Tagged>, i: nat)
    requires i < |ws|
    ensures ws[i].write in Of(ws, ws[i].task)
  {
    if i < |ws| - 1 {
      TaskWrote(ws[..|ws|-1], i);
    }
  }

  lemma {:induction false} WroteInLog(ws: seq<Tagged>, t: TaskId, w: Write)
    requires w in Of(ws, t)
    ensures Tagged(t, w) in ws
  {
    var n := |ws| - 1;
    if w in Of(ws[..n], t) {
      WroteInLog(ws[..n], t, w);
      assert ws == ws[..n] + [ws[n]];
    } else {
      assert ws[n] == Tagged(t, w);
    }
  }

  ghost predicate Purged(ws: seq<Tagged>, j: JobId) {
    exists i :: 0 <= i < |ws| && ws[i].write.DeleteJobs? && j in ws[i].write.gone
  }

  lemma {:induction false} RowsFromInserts(ws: seq<Tagged>, j: JobId)
    ensures j in Replay(EMPTY_DB, ws).jobs ==>
              exists i :: 0 <= i < |ws| && ws[i].write.InsertJob? && ws[i].write.job == j
    ensures (exists i :: 0 <= i < |ws| && ws[i].write.InsertJob? && ws[i].write.job == j) && !Purged(ws, j) ==>
              j in Replay(EMPTY_DB, ws).jobs
  {
    if ws != [] {
      var n := |ws| - 1;
      RowsFromInserts(ws[..n], j);
      if Purged(ws[..n], j) {
        var k :| 0 <= k < n && ws[..n][k].write.DeleteJobs? && j in ws[..n][k].write.gone;
        assert ws[k].write.DeleteJobs? && j in ws[k].write.gone;
      }
      if j in Replay(EMPTY_DB, ws).jobs && !(ws[n].write.InsertJob? && ws[n].write.job == j) {
        var i :| 0 <= i < n && ws[..n][i].write.InsertJob? && ws[..n][i].write.job == j;
        assert ws[i].write.InsertJob? && ws[i].write.job == j;
      }
      if (exists i :: 0 <= i < |ws| && ws[i].write.InsertJob? && ws[i].write.job == j) && !Purged(ws, j) {
        var i :| 0 <= i < |ws| && ws[i].write.InsertJob? && ws[i].write.job == j;
        assert !(ws[n].write.DeleteJobs? && j in ws[n].write.gone);
        if i < n {
          assert ws[..n][i].write.InsertJob? && ws[..n][i].write.job == j;
        }
      }
    }
  }

  lemma {:induction false} EventsFromInserts(ws: seq<Tagged>, e: EventId)
    ensures e in Replay(EMPTY_DB, ws).events <==>
              exists i :: 0 <= i < |ws| && ws[i].write.InsertEvent? && ws[i].write.event == e
  {
    if ws != [] {
      var n := |ws| - 1;
      EventsFromInserts(ws[..n], e);
      if i :| 0 <= i < |ws| && ws[i].write.InsertEvent? && ws[i].write.event == e && i < n {
        assert ws[..n][i].write.InsertEvent? && ws[..n][i].write.event == e;
      }
      if i :| 0 <= i < n && ws[..n][i].write.InsertEvent? && ws[..n][i].write.event == e {
        assert ws[i].write.InsertEvent? && ws[i].write.event == e;
      }
    }
  }

  // Who announced an event or inserted a job that is committed has writes in the log.
  lemma EventOwnerWrote(s: State, e: EventId)
    requires Tidy(s) && OwnedIn(s, s.log) && e in s.committed.events
    ensures e in s.announced && Of(s.log, s.announced[e]) != []
  {
    EventsFromInserts(s.log, e);
    var i :| 0 <= i < |s.log| && s.log[i].write.InsertEvent? && s.log[i].write.event == e;
    TaskWrote(s.log, i);
  }

  lemma JobOwnerWrote(s: State, j: JobId)
    requires Tidy(s) && OwnedIn(s, s.log) && j in s.committed.jobs
    ensures j in s.inserted && Of(s.log, s.inserted[j]) != []
  {
    RowsFromInserts(s.log, j);
    var i :| 0 <= i < |s.log| && s.log[i].write.InsertJob? && s.log[i].write.job == j;
    TaskWrote(s.log, i);
  }

  lemma BothCommitted(s: State, t: TaskId, j: JobId, row: Row, e: EventId)
    requires Tidy(s) && InsertJob(j, row) in Of(s.log, t) && InsertEvent(e, j) in Of(s.log, t)
    ensures e in s.committed.events && (j in s.committed.jobs || Purged(s.log, j))
  {
    WroteInLog(s.log, t, InsertJob(j, row));
    WroteInLog(s.log, t, InsertEvent(e, j));
    var i :| 0 <= i < |s.log| && s.log[i] == Tagged(t, InsertJob(j, row));
    assert s.log[i].write.InsertJob? && s.log[i].write.job == j;
    var k :| 0 <= k < |s.log| && s.log[k] == Tagged(t, InsertEvent(e, j));
    assert s.log[k].write.InsertEvent? && s.log[k].write.event == e;
    RowsFromInserts(s.log, j);
    EventsFromInserts(s.log, e);
  }

  // Job submission: the committed database never holds the outbox event without the job row,
  // unless the job was purged later, and never the job row without the event.
  lemma RowAndEventTogether(steps: seq<Step>, s: State, t: TaskId, j: JobId, row: Row, e: EventId)
    requires Leads(INIT, steps, s) && t in s.tasks
    requires s.tasks[t].kind.Transaction? && s.tasks[t].writes == [InsertJob(j, row), InsertEvent(e, j)]
    ensures e in s.committed.events && e in s.announced && s.announced[e] == t ==>
              j in s.committed.jobs || Purged(s.log, j)
    ensures j in s.committed.jobs && j in s.inserted && s.inserted[j] == t ==> e in s.committed.events
  {
    InvRun(INIT, steps, s);
    TransactionAtomic(steps, s, t);
    if Of(s.log, t) == s.tasks[t].writes {
      assert InsertJob(j, row) == s.tasks[t].writes[0] && InsertEvent(e, j) == s.tasks[t].writes[1];
      BothCommitted(s, t, j, row, e);
    } else {
      if e in s.committed.events { EventOwnerWrote(s, e); }
      if j in s.committed.jobs { JobOwnerWrote(s, j); }
    }
  }

  // Nothing pending belongs to anyone but the lock holder.
  ghost predicate StrayFree(s: State) {
    forall i :: 0 <= i < |s.pending| ==> s.lock == Some(s.pending[i].task)
  }

  lemma StrayUnlessRaise(s: State, step: Step)
    requires StrayFree(s) && Enabled(s, step) && !step.Raise?
    ensures StrayFree(Apply(s, step))
  {
    if step.Execute? {
      RunExtends(s, step.task);
    }
  }

  // The one step that leaves writes pending without the lock: a purge whose later statement
  // raises. Otherwise a rollback undoes exactly the raising block's own writes.
  lemma StrayExactly(s: State, step: Step)
    requires Blocks(s) && Tidy(s) && StrayFree(s) && Enabled(s, step)
    ensures StrayFree(Apply(s, step)) <==>
            !(step.Raise? && s.tasks[step.task].kind.Plain? && s.tasks[step.task].done > 0)
    ensures step.Raise? && s.tasks[step.task].kind.Transaction? ==>
            && Apply(s, step).view == s.committed
            && (forall p :: p in s.pending ==> p.task == step.task)
            && Of(s.pending, step.task) == s.tasks[step.task].writes[..s.tasks[step.task].done]
  {
    if step.Raise? {
      assert Block(s, step.task) && Shaped(s.tasks[step.task]);
      if s.tasks[step.task].done > 0 {
        assert s.pending != [];
      } else {
        OfNothing(s.pending, step.task);
      }
    } else {
      StrayUnlessRaise(s, step);
    }
  }

  ghost predicate PurgeRaises(s: State, step: Step) {
    step.Raise? && step.task in s.tasks && s.tasks[step.task].kind.Plain? && s.tasks[step.task].done > 0
  }

  ghost predicate NoPurgeRaises(from: State, steps: seq<Step>)
    decreases |steps|
  {
    steps == [] ||
    (!PurgeRaises(from, steps[0]) && (Enabled(from, steps[0]) ==> NoPurgeRaises(Apply(from, steps[0]), steps[1..])))
  }

  // Over a run without such a purge, pending writes always belong to the lock holder alone.
  lemma {:induction false} PendingBelongsToHolder(from: State, steps: seq<Step>, s: State)
    requires Inv(from) && StrayFree(from) && NoPurgeRaises(from, steps) && Leads(from, steps, s)
    ensures StrayFree(s)
    decreases |steps|
  {
    if steps != [] {
      InvStep(from, steps[0]);
      StrayExactly(from, steps[0]);
      PendingBelongsToHolder(Apply(from, steps[0]), steps[1..], s);
    }
  }

  lemma {:induction false} OfNothing(ws: seq<Tagged>, t: TaskId)
    requires Of(ws, t) == [] && forall i :: 0 <= i < |ws| ==> ws[i].task == t
    ensures ws == []
  {}

  // Two reads of a job, at any two moments of a run, that see one version see one state.
  lemma VersionDeterminesState(steps: seq<Step>, s: State, more: seq<Step>, later: State, j: JobId)
    requires Leads(INIT, steps, s) && Leads(s, more, later)
    requires j in s.view.jobs && j in later.view.jobs && s.view.jobs[j].version == later.view.jobs[j].version
    ensures s.view.jobs[j].state == later.view.jobs[j].state
  {
    InvRun(INIT, steps, s);
    InvRun(s, more, later);
  }

  // Every state change made by a client is one that client accepts to make, judged by the
  // state the row really had when it was written.
  lemma MovesAreAccepted(steps: seq<Step>, s: State, m: Move)
    requires Leads(INIT, steps, s) && m in s.moves
    ensures m.client == Reaper ==> m.from == RUNNING && m.to == FAILED
    ensures m.client == SoftDeleter ==> m.to == DELETED && m.from in {SUCCEEDED, FAILED, CANCELLED, DEAD_LETTERED}
    ensures m.client == Canceller ==> m.to == CANCELLED && m.from in {QUEUED, RUNNING, DELETED}
  {
    InvRun(INIT, steps, s);
    var k :| 0 <= k < |s.moves| && s.moves[k] == m;
    assert Accepts(m.client, m.from, m.to);
  }

  // --- Who overtakes whom ---

  function MovesOn(moves: seq<Move>, j: JobId): nat {
    if moves == [] then 0
    else MovesOn(moves[..|moves|-1], j) + if moves[|moves|-1].job == j then 1 else 0
  }

  lemma {:induction false} MovesOnGrows(a: seq<Move>, b: seq<Move>, j: JobId)
    requires a <= b
    ensures MovesOn(a, j) <= MovesOn(b, j)
    ensures MovesOn(a, j) == MovesOn(b, j) <==> forall k :: |a| <= k < |b| ==> b[k].job != j
    decreases |b|
  {
    if |b| == |a| {
      assert a == b;
    } else {
      MovesOnGrows(a, b[..|b|-1], j);
      assert forall k :: 0 <= k < |b| - 1 ==> b[..|b|-1][k] == b[k];
    }
  }

  // Versions count moves: a job's version is its moves so far plus a constant.
  ghost predicate Tallied(db: Db, s: State, j: JobId, c: int) {
    j in db.jobs ==> db.jobs[j].version == c + MovesOn(s.moves, j)
  }

  ghost predicate Tallies(s: State, j: JobId, c: int) {
    j in s.inserted && Tallied(s.view, s, j, c) && (!BoundToCommit(s) ==> Tallied(s.committed, s, j, c))
  }

  lemma MovesOnSnoc(moves: seq<Move>, m: Move, j: JobId)
    ensures MovesOn(moves + [m], j) == MovesOn(moves, j) + if m.job == j then 1 else 0
  {
    assert (moves + [m])[..|moves + [m]| - 1] == moves;
  }

  lemma VersionAfterWrite(db: Db, w: Write, j: JobId)
    requires j in ApplyWrite(db, w).jobs && !(w.InsertJob? && w.job == j)
    ensures j in db.jobs
    ensures ApplyWrite(db, w).jobs[j].version
         == db.jobs[j].version + if w.Cas? && w.job == j && CasHits(db, w) then 1 else 0
  {}

  // Only a compare-and-set that hits makes a move, and only decisions hold one.
  lemma RunMoves(s: State, t: TaskId)
    requires Tidy(s) && CanExecute(s, t)
    ensures var w := s.tasks[t].writes[s.tasks[t].done];
            if w.Cas? && CasHits(s.view, w)
            then BoundToCommit(Run(s, t)) && |Run(s, t).moves| == |s.moves| + 1 && s.moves <= Run(s, t).moves
                 && Run(s, t).moves[|s.moves|].job == w.job
            else Run(s, t).moves == s.moves
    ensures forall j :: j in s.inserted ==> j in Run(s, t).inserted
  {
    var w := s.tasks[t].writes[s.tasks[t].done];
    assert w in s.tasks[t].writes && Shaped(s.tasks[t]);
  }

  lemma TalliedAfterExecute(s: State, t: TaskId, j: JobId, c: int)
    requires Tidy(s) && Tallies(s, j, c) && CanExecute(s, t)
    ensures Tallied(Run(s, t).view, Run(s, t), j, c)
  {
    var s' := Run(s, t);
    var w := s.tasks[t].writes[s.tasks[t].done];
    RunExtends(s, t);
    RunMoves(s, t);
    if j in s'.view.jobs {
      VersionAfterWrite(s.view, w, j);
    }
    if w.Cas? && CasHits(s.view, w) {
      assert s'.moves == s.moves + [s'.moves[|s.moves|]];
      MovesOnSnoc(s.moves, s'.moves[|s.moves|], j);
    }
  }

  lemma TalliesAfterExecute(s: State, t: TaskId, j: JobId, c: int)
    requires Tidy(s) && Tallies(s, j, c) && CanExecute(s, t)
    ensures Tallies(Run(s, t), j, c)
  {
    RunExtends(s, t);
    RunMoves(s, t);
    TalliedAfterExecute(s, t, j, c);
    if BoundToCommit(s) {
      assert Shaped(s.tasks[t]);
    }
  }

  lemma TalliesStep(s: State, step: Step, j: JobId, c: int)
    requires Tidy(s) && Tallies(s, j, c) && Enabled(s, step)
    ensures Tallies(Apply(s, step), j, c)
  {
    match step
    case Execute(t) => TalliesAfterExecute(s, t, j, c);
    case Raise(t) => assert Shaped(s.tasks[t]);
    case _ =>
  }

  lemma {:induction false} TalliesRun(from: State, steps: seq<Step>, s: State, j: JobId, c: int)
    requires Tidy(from) && Tallies(from, j, c) && Leads(from, steps, s)
    ensures Tallies(s, j, c)
    decreases |steps|
  {
    if steps != [] {
      TidyStep(from, steps[0]);
      TalliesStep(from, steps[0], j, c);
      TalliesRun(Apply(from, steps[0]), steps[1..], s, j, c);
    }
  }

  // A reachable state starts such a count for every job it shows.
  lemma TalliesStart(s: State, j: JobId)
    requires Versions(s) && j in s.view.jobs
    ensures Tallies(s, j, s.view.jobs[j].version - MovesOn(s.moves, j))
  {
    if j in s.committed.jobs && !BoundToCommit(s) {
      assert (j, s.committed.jobs[j].version) in s.seen && (j, s.view.jobs[j].version) in s.seen;
    }
  }

  ghost predicate MoversRan(s: State) {
    forall k :: 0 <= k < |s.moves| ==> s.moves[k].task in s.tasks && s.tasks[s.moves[k].task].done > 0
  }

  // A task keeps its plan, and its statements only advance.
  ghost predicate TaskKept(s: State, s': State, t: TaskId) {
    t in s.tasks ==>
      && t in s'.tasks && s'.tasks[t].kind == s.tasks[t].kind && s'.tasks[t].writes == s.tasks[t].writes
      && s'.tasks[t].done >= s.tasks[t].done
  }

  lemma TaskKeptStep(s: State, step: Step, t: TaskId)
    requires Enabled(s, step)
    ensures TaskKept(s, Apply(s, step), t)
  {
    if step.Execute? {
      RunExtends(s, step.task);
    }
  }

  // One step adds at most one move, of the task that executes.
  lemma MovesStep(s: State, step: Step)
    requires Enabled(s, step)
    ensures var s' := Apply(s, step);
            s'.moves == s.moves ||
            (step.Execute? && |s'.moves| == |s.moves| + 1 && s.moves <= s'.moves
             && s'.moves[|s.moves|].task == step.task
             && s.tasks[step.task].done < |s.tasks[step.task].writes| && s'.tasks[step.task].done > 0)
  {}

  lemma {:induction false} MoversRun(from: State, steps: seq<Step>, s: State)
    requires MoversRan(from) && Leads(from, steps, s)
    ensures MoversRan(s) && from.moves <= s.moves && forall t :: TaskKept(from, s, t)
    decreases |steps|
  {
    if steps != [] {
      var next := Apply(from, steps[0]);
      MovesStep(from, steps[0]);
      forall t ensures TaskKept(from, next, t) {
        TaskKeptStep(from, steps[0], t);
      }
      assert MoversRan(next) by {
        assert forall k :: 0 <= k < |from.moves| ==> TaskKept(from, next, from.moves[k].task);
      }
      MoversRun(next, steps[1..], s);
      forall t ensures TaskKept(from, s, t) {
        assert TaskKept(from, next, t) && TaskKept(next, s, t);
      }
    }
  }

  // A task with no statement left makes no more moves.
  lemma {:induction false} FinishedMovesNothing(from: State, steps: seq<Step>, s: State, t: TaskId)
    requires t in from.tasks && from.tasks[t].done >= |from.tasks[t].writes| && Leads(from, steps, s)
    ensures from.moves <= s.moves && forall k :: |from.moves| <= k < |s.moves| ==> s.moves[k].task != t
    decreases |steps|
  {
    if steps != [] {
      var next := Apply(from, steps[0]);
      MovesStep(from, steps[0]);
      TaskKeptStep(from, steps[0], t);
      FinishedMovesNothing(next, steps[1..], s, t);
      forall k | |from.moves| <= k < |s.moves| ensures s.moves[k].task != t {
        assert k < |next.moves| ==> s.moves[k] == next.moves[k];
      }
    }
  }

  // A client has read `job` in `read`, decided, and holds the lock: its compare-and-set is next.
  ghost predicate AboutToUpdate(read: State, decide: Step, wait: seq<Step>, s: State) {
    && decide.Decide? && Enabled(read, decide) && Leads(Apply(read, decide), wait, s)
    && s.lock == Some(decide.task) && decide.task in s.tasks && s.tasks[decide.task].done == 0
  }

  lemma UpdatePlanned(read: State, decide: Step, wait: seq<Step>, s: State)
    requires MoversRan(read) && AboutToUpdate(read, decide, wait, s)
    ensures |s.tasks[decide.task].writes| == 1 && s.tasks[decide.task].writes[0].Cas?
    ensures s.tasks[decide.task].writes[0].job == decide.job
    ensures s.tasks[decide.task].writes[0].expected == read.view.jobs[decide.job].version
    ensures MoversRan(s) && read.moves <= s.moves
  {
    var decided := Apply(read, decide);
    TaskKeptStep(read, decide, decide.task);
    assert MoversRan(decided) by {
      assert forall k :: 0 <= k < |read.moves| ==> read.moves[k].task != decide.task;
    }
    MoversRun(decided, wait, s);
    assert TaskKept(decided, s, decide.task);
  }

  // The first statement of t is a compare-and-set that would hit now.
  predicate Hits(s: State, t: TaskId) {
    t in s.tasks && s.tasks[t].writes != [] && s.tasks[t].writes[0].Cas? && CasHits(s.view, s.tasks[t].writes[0])
  }

  ghost predicate MovedByOthers(moves: seq<Move>, from: nat, to: nat, j: JobId, own: set<TaskId>) {
    exists k :: from <= k < to <= |moves| && moves[k].job == j && moves[k].task !in own
  }

  lemma VersionsCountMoves(from: State, steps: seq<Step>, s: State, j: JobId)
    requires Tidy(from) && Versions(from) && j in from.view.jobs && from.moves <= s.moves
    requires steps != [] && Enabled(from, steps[0]) && Leads(Apply(from, steps[0]), steps[1..], s)
    ensures j in s.view.jobs ==>
              (s.view.jobs[j].version == from.view.jobs[j].version <==>
               forall k :: |from.moves| <= k < |s.moves| ==> s.moves[k].job != j)
  {
    TalliesStart(from, j);
    TalliesRun(from, steps, s, j, from.view.jobs[j].version - MovesOn(from.moves, j));
    MovesOnGrows(from.moves, s.moves, j);
  }

  lemma UpdateCounts(read: State, decide: Step, wait: seq<Step>, s: State)
    requires Tidy(read) && Versions(read) && MoversRan(read) && AboutToUpdate(read, decide, wait, s)
    ensures read.moves <= s.moves && forall k :: 0 <= k < |s.moves| ==> s.moves[k].task != decide.task
    ensures Hits(s, decide.task) <==>
              decide.job in s.view.jobs && forall k :: |read.moves| <= k < |s.moves| ==> s.moves[k].job != decide.job
  {
    UpdatePlanned(read, decide, wait, s);
    assert ([decide] + wait)[1..] == wait;
    VersionsCountMoves(read, [decide] + wait, s, decide.job);
  }

  // When it comes to execute, the compare-and-set hits exactly when the job is still there and
  // nobody has moved it since the read; when it misses an existing job, another task has.
  lemma MissMeansOvertaken(steps: seq<Step>, read: State, decide: Step, wait: seq<Step>, s: State)
    requires Leads(INIT, steps, read) && AboutToUpdate(read, decide, wait, s)
    ensures read.moves <= s.moves
    ensures Hits(s, decide.task) <==>
              decide.job in s.view.jobs && forall k :: |read.moves| <= k < |s.moves| ==> s.moves[k].job != decide.job
    ensures !Hits(s, decide.task) && decide.job in s.view.jobs ==>
              MovedByOthers(s.moves, |read.moves|, |s.moves|, decide.job, {decide.task})
  {
    InvRun(INIT, steps, read);
    MoversRun(INIT, steps, read);
    UpdateCounts(read, decide, wait, s);
  }

  lemma {:induction false} LeadsTrans(s0: State, a: seq<Step>, s1: State, b: seq<Step>, s2: State)
    requires Leads(s0, a, s1) && Leads(s1, b, s2)
    ensures Leads(s0, a + b, s2)
    decreases |a|
  {
    if a == [] {
      assert a + b == b;
    } else {
      LeadsTrans(Apply(s0, a[0]), a[1..], s1, b, s2);
      assert (a + b)[1..] == a[1..] + b;
    }
  }

  lemma LeadsCons(s0: State, step: Step, rest: seq<Step>, s: State)
    requires Enabled(s0, step) && Leads(Apply(s0, step), rest, s)
    ensures Leads(s0, [step] + rest, s)
  {
    assert ([step] + rest)[1..] == rest;
  }

  lemma SomeMoveByOthers(moves: seq<Move>, later: seq<Move>, from: nat, to: nat, j: JobId,
                         own: set<TaskId>, task: TaskId,
                         all: set<TaskId>)
    requires MovedByOthers(moves, from, to, j, own) && moves <= later
    requires forall k :: from <= k < to ==> moves[k].task != task
    requires all == own + {task}
    ensures MovedByOthers(later, from, to, j, all)
  {
    var k :| from <= k < to <= |moves| && moves[k].job == j && moves[k].task !in own;
    assert later[k] == moves[k];
  }

  // The first attempt misses because of others, and the second one is not among them.
  lemma FirstMiss(steps: seq<Step>, read: State, first: Step, wait: seq<Step>, s: State,
                  between: seq<Step>, reread: State, second: Step, rewait: seq<Step>, later: State)
    requires Leads(INIT, steps, read) && AboutToUpdate(read, first, wait, s)
    requires Enabled(s, Execute(first.task)) && Leads(Apply(s, Execute(first.task)), between, reread)
    requires AboutToUpdate(reread, second, rewait, later)
    requires first.job in s.view.jobs && !Hits(s, first.task)
    ensures MovedByOthers(later.moves, |read.moves|, |s.moves|, first.job, {first.task, second.task})
  {
    MissMeansOvertaken(steps, read, first, wait, s);
    NoOwnMoves(steps, read, first, wait, s, between, reread, second, rewait, later);
    SomeMoveByOthers(s.moves, later.moves, |read.moves|, |s.moves|, first.job,
                     {first.task}, second.task, {first.task, second.task});
  }

  lemma SecondMiss(steps: seq<Step>, read: State, first: Step, wait: seq<Step>, s: State,
                   between: seq<Step>, reread: State, second: Step, rewait: seq<Step>, later: State)
    requires Leads(INIT, steps, read) && AboutToUpdate(read, first, wait, s)
    requires Enabled(s, Execute(first.task)) && Leads(Apply(s, Execute(first.task)), between, reread)
    requires AboutToUpdate(reread, second, rewait, later)
    requires second.job in later.view.jobs && !Hits(later, second.task)
    ensures |s.moves| <= |reread.moves|
    ensures MovedByOthers(later.moves, |reread.moves|, |later.moves|, second.job, {first.task, second.task})
  {
    var all := Reread(steps, read, first, wait, s, between, reread);
    MissMeansOvertaken(all, reread, second, rewait, later);
    NoOwnMoves(steps, read, first, wait, s, between, reread, second, rewait, later);
    SomeMoveByOthers(later.moves, later.moves, |reread.moves|, |later.moves|, second.job,
                     {second.task}, first.task, {first.task, second.task});
  }

  // A worker retries a lost update once: it reads again and plans again. It gives up on a job that
  // is still there only when others have moved it twice, once before each attempt.
  lemma TwoMissesMeanTwoMoves(steps: seq<Step>, read: State, first: Step, wait: seq<Step>, s: State,
                              between: seq<Step>, reread: State, second: Step, rewait: seq<Step>, later: State)
    requires Leads(INIT, steps, read) && AboutToUpdate(read, first, wait, s)
    requires Enabled(s, Execute(first.task)) && Leads(Apply(s, Execute(first.task)), between, reread)
    requires AboutToUpdate(reread, second, rewait, later) && second.job == first.job
    requires first.job in s.view.jobs && !Hits(s, first.task)
    requires first.job in later.view.jobs && !Hits(later, second.task)
    ensures |s.moves| <= |reread.moves|
    ensures MovedByOthers(later.moves, |read.moves|, |s.moves|, first.job, {first.task, second.task})
    ensures MovedByOthers(later.moves, |reread.moves|, |later.moves|, first.job, {first.task, second.task})
  {
    FirstMiss(steps, read, first, wait, s, between, reread, second, rewait, later);
    SecondMiss(steps, read, first, wait, s, between, reread, second, rewait, later);
  }

  lemma Reread(steps: seq<Step>, read: State, first: Step, wait: seq<Step>, s: State, between: seq<Step>, reread: State)
    returns (all: seq<Step>)
    requires Leads(INIT, steps, read) && AboutToUpdate(read, first, wait, s)
    requires Enabled(s, Execute(first.task)) && Leads(Apply(s, Execute(first.task)), between, reread)
    ensures Leads(INIT, all, reread)
  {
    LeadsCons(s, Execute(first.task), between, reread);
    LeadsTrans(Apply(read, first), wait, s, [Execute(first.task)] + between, reread);
    LeadsCons(read, first, wait + ([Execute(first.task)] + between), reread);
    all := [first] + (wait + ([Execute(first.task)] + between));
    LeadsTrans(INIT, steps, read, all, reread);
    all := steps + all;
  }

  // Neither attempt counts among the moves that defeat the other.
  lemma NoOwnMoves(steps: seq<Step>, read: State, first: Step, wait: seq<Step>, s: State,
                   between: seq<Step>, reread: State, second: Step, rewait: seq<Step>, later: State)
    requires Leads(INIT, steps, read) && AboutToUpdate(read, first, wait, s)
    requires Enabled(s, Execute(first.task)) && Leads(Apply(s, Execute(first.task)), between, reread)
    requires AboutToUpdate(reread, second, rewait, later)
    ensures s.moves <= reread.moves <= later.moves
    ensures forall k :: 0 <= k < |s.moves| ==> s.moves[k].task != second.task
    ensures forall k :: |reread.moves| <= k < |later.moves| ==> later.moves[k].task != first.task
  {
    MoversRun(INIT, steps, read);
    UpdatePlanned(read, first, wait, s);
    MoversKnown(s, first.task, between, reread);
    FinishedMovesNothing(Apply(reread, second), rewait, later, first.task);
  }

  // Once t has executed its one statement it is finished, and the movers so far stay known.
  lemma MoversKnown(s: State, t: TaskId, between: seq<Step>, later: State)
    requires MoversRan(s) && Enabled(s, Execute(t)) && |s.tasks[t].writes| == 1
    requires Leads(Apply(s, Execute(t)), between, later)
    ensures s.moves <= later.moves && forall k :: 0 <= k < |s.moves| ==> s.moves[k].task in later.tasks
    ensures t in later.tasks && later.tasks[t].done >= |later.tasks[t].writes|
  {
    MovesStep(s, Execute(t));
    TaskKeptStep(s, Execute(t), t);
    assert Apply(s, Execute(t)).tasks[t].done == 1;
    FinishedMovesNothing(Apply(s, Execute(t)), between, later, t);
    TaskStays(s, Execute(t), between, later, t);
    forall k | 0 <= k < |s.moves| ensures s.moves[k].task in later.tasks {
      TaskStays(s, Execute(t), between, later, s.moves[k].task);
    }
  }

  lemma {:induction false} TaskKeptRun(from: State, steps: seq<Step>, s: State, t: TaskId)
    requires Leads(from, steps, s)
    ensures TaskKept(from, s, t)
    decreases |steps|
  {
    if steps != [] {
      TaskKeptStep(from, steps[0], t);
      TaskKeptRun(Apply(from, steps[0]), steps[1..], s, t);
    }
  }

  lemma TaskStays(from: State, step: Step, steps: seq<Step>, s: State, t: TaskId)
    requires Enabled(from, step) && Leads(Apply(from, step), steps, s)
    ensures TaskKept(from, s, t) && TaskKept(Apply(from, step), s, t)
  {
    TaskKeptStep(from, step, t);
    TaskKeptRun(Apply(from, step), steps, s, t);
  }

  // --- Cancelling a deleted job ---

  lemma {:induction false} LeadsSnoc(from: State, steps: seq<Step>, s: State, step: Step)
    requires Leads(from, steps, s) && Enabled(s, step)
    ensures Leads(from, steps + [step], Apply(s, step))
    decreases |steps|
  {
    if steps == [] {
      assert (steps + [step])[1..] == [];
    } else {
      LeadsSnoc(Apply(from, steps[0]), steps[1..], s, step);
      assert (steps + [step])[1..] == steps[1..] + [step];
    }
  }

  ghost predicate AtRest(s: State, nextTask: TaskId) {
    s.lock == None && s.pending == [] && s.view == s.committed && forall t :: t in s.tasks ==> t < nextTask
  }

  // Acquire, execute the one statement, commit.
  lemma SingleEffect(s: State, t: TaskId, n: TaskId) returns (s': State)
    requires AtRest(s, n) && t in s.tasks && !s.tasks[t].over
    requires s.tasks[t].done == 0 && |s.tasks[t].writes| == 1
    requires CanExecute(s.(lock := Some(t)), t)
    ensures var s2 := Run(s.(lock := Some(t)), t);
            && Enabled(s, Acquire(t)) && Apply(s, Acquire(t)) == s.(lock := Some(t))
            && Enabled(s2, Commit(t)) && s' == Apply(s2, Commit(t))
    ensures AtRest(s', n)
    ensures s'.committed == ApplyWrite(s.view, s.tasks[t].writes[0])
    ensures s'.moves == Run(s.(lock := Some(t)), t).moves
    ensures forall u :: u in s.tasks && u != t ==> u in s'.tasks && s'.tasks[u] == s.tasks[u]
  {
    RunExtends(s.(lock := Some(t)), t);
    s' := Apply(Run(s.(lock := Some(t)), t), Commit(t));
  }

  lemma RunSingle(from: State, steps: seq<Step>, s: State, t: TaskId, n: TaskId) returns (longer: seq<Step>, s': State)
    requires Leads(from, steps, s) && AtRest(s, n) && t in s.tasks && !s.tasks[t].over
    requires s.tasks[t].done == 0 && |s.tasks[t].writes| == 1
    requires CanExecute(s.(lock := Some(t)), t)
    ensures Leads(from, longer, s') && AtRest(s', n)
    ensures s'.committed == ApplyWrite(s.view, s.tasks[t].writes[0])
    ensures s'.moves == Run(s.(lock := Some(t)), t).moves
    ensures forall u :: u in s.tasks && u != t ==> u in s'.tasks && s'.tasks[u] == s.tasks[u]
  {
    s' := SingleEffect(s, t, n);
    var s1 := s.(lock := Some(t));
    LeadsSnoc(from, steps, s, Acquire(t));
    longer := steps + [Acquire(t)];
    LeadsSnoc(from, longer, s1, Execute(t));
    longer := longer + [Execute(t)];
    LeadsSnoc(from, longer, Run(s1, t), Commit(t));
    longer := longer + [Commit(t)];
  }

  // A submission that nothing disturbs puts both rows into the committed database.
  lemma SubmissionCommits(j: JobId, row: Row, e: EventId) returns (steps: seq<Step>, s: State)
    ensures Leads(INIT, steps, s) && j in s.committed.jobs && s.committed.jobs[j] == row
    ensures e in s.committed.events && s.committed.events[e] == j
  {
    var start := StartTransaction(0, [InsertJob(j, row), InsertEvent(e, j)]);
    var s1 := Apply(INIT, start);
    var s2 := Apply(s1, Acquire(0));
    RunExtends(s2, 0);
    var s3 := Apply(s2, Execute(0));
    RunExtends(s3, 0);
    var s4 := Apply(s3, Execute(0));
    s := Apply(s4, Commit(0));
    steps := [Commit(0)] + [];
    LeadsCons(s4, Commit(0), [], s);
    LeadsCons(s3, Execute(0), steps, s);
    steps := [Execute(0)] + steps;
    LeadsCons(s2, Execute(0), steps, s);
    steps := [Execute(0)] + steps;
    LeadsCons(s1, Acquire(0), steps, s);
    steps := [Acquire(0)] + steps;
    LeadsCons(INIT, start, steps, s);
    steps := [start] + steps;
  }

  // A client reads the row and updates it undisturbed.
  lemma DecideAlone(steps: seq<Step>, s: State, t: TaskId, client: Client, j: JobId, target: JobState)
    returns (longer: seq<Step>, s': State)
    requires Leads(INIT, steps, s) && AtRest(s, t) && j in s.view.jobs && Accepts(client, s.view.jobs[j].state, target)
    ensures Leads(INIT, longer, s') && AtRest(s', t + 1) && j in s'.view.jobs
    ensures var row, row' := s.view.jobs[j], s'.view.jobs[j];
            && row'.state == target && row'.heartbeat == row.heartbeat
            && row'.deletedAt == if client.SoftDeleter? then Some(0) else row.deletedAt
    ensures s'.moves == s.moves + [Move(t, client, j, s.view.jobs[j].state, target)]
  {
    var step := Decide(t, client, j, target, 0);
    LeadsSnoc(INIT, steps, s, step);
    longer, s' := RunSingle(INIT, steps + [step], Apply(s, step), t, t + 1);
  }

  // And each does act on every state it is for, however the store came to it: the reaper on RUNNING,
  // the cancel endpoint on what it does not refuse, soft deletion on the four terminal states.
  lemma ClientsAct(steps: seq<Step>, s: State, t: TaskId, client: Client, j: JobId, target: JobState)
    requires Leads(INIT, steps, s) && AtRest(s, t) && j in s.view.jobs
    requires var state := s.view.jobs[j].state;
             || (client == Reaper && state == RUNNING && target == FAILED)
             || (client == Canceller && state in {QUEUED, RUNNING, DELETED} && target == CANCELLED)
             || (client == SoftDeleter && state in {SUCCEEDED, FAILED, CANCELLED, DEAD_LETTERED} && target == DELETED)
    ensures exists longer, s' :: Leads(INIT, longer, s') && j in s'.view.jobs && s'.view.jobs[j].state == target
  {
    var longer, s' := DecideAlone(steps, s, t, client, j, target);
  }

  lemma JobInserted(j: JobId, row: Row) returns (steps: seq<Step>, s: State)
    ensures Leads(INIT, steps, s) && AtRest(s, 1) && j in s.view.jobs && s.view.jobs[j] == row && s.moves == []
  {
    var start := StartPlain(0, InsertJob(j, row));
    LeadsSnoc(INIT, [], INIT, start);
    steps, s := RunSingle(INIT, [] + [start], Apply(INIT, start), 0, 1);
  }

  lemma SucceededAndDeleted(j: JobId, row: Row) returns (steps: seq<Step>, s: State)
    requires row.state == QUEUED
    ensures Leads(INIT, steps, s) && AtRest(s, 3) && j in s.view.jobs
    ensures s.view.jobs[j].state == DELETED && s.view.jobs[j].deletedAt == Some(0)
  {
    steps, s := JobInserted(j, row);
    steps, s := DecideAlone(steps, s, 1, Worker, j, SUCCEEDED);
    steps, s := DecideAlone(steps, s, 2, SoftDeleter, j, DELETED);
  }

  // A job succeeds, is soft-deleted and then cancelled.
  lemma DeletedThenCancelled(j: JobId, row: Row) returns (steps: seq<Step>, s: State)
    requires row.state == QUEUED
    ensures Leads(INIT, steps, s) && AtRest(s, 4) && Move(3, Canceller, j, DELETED, CANCELLED) in s.moves
    ensures j in s.view.jobs && s.view.jobs[j].state == CANCELLED && s.view.jobs[j].deletedAt == Some(0)
  {
    steps, s := SucceededAndDeleted(j, row);
    steps, s := DecideAlone(steps, s, 3, Canceller, j, CANCELLED);
    assert s.moves[|s.moves| - 1] == Move(3, Canceller, j, DELETED, CANCELLED);
  }

  // The cancel endpoint means to act on QUEUED and RUNNING jobs only, and refuses the four
  // terminal states; a soft-deleted job passes its check and is brought back as CANCELLED.
  lemma CancelRevivesDeleted(j: JobId, row: Row)
    requires row.state == QUEUED
    ensures exists steps, s :: Leads(INIT, steps, s) && Move(3, Canceller, j, DELETED, CANCELLED) in s.moves
  {
    var steps, s := DeletedThenCancelled(j, row);
  }

  // --- A purge that raises midway ---

  lemma PurgeStrays(s: State, t: TaskId, j: JobId) returns (steps: seq<Step>, stray: State)
    requires AtRest(s, t)
    ensures Leads(s, steps, stray) && stray.lock == None && stray.tasks.Keys == s.tasks.Keys + {t}
    ensures stray.pending == [Tagged(t, DeleteAttempts({j}))]
    ensures stray.committed == s.committed && stray.view == ApplyWrite(s.view, DeleteAttempts({j}))
  {
    var writes := [DeleteAttempts({j}), DeleteJobs({j})];
    var purge := StartPurge(t, writes);
    var s1 := Apply(s, purge);
    var s2 := s1.(lock := Some(t));
    assert s1 == s.(tasks := s.tasks[t := Task(Plain, writes, 0, false)]);
    var s3 := PurgeDeletes(s2, t, writes);
    stray := Apply(s3, Raise(t));
    steps := [Raise(t)] + [];
    LeadsCons(s3, Raise(t), [], stray);
    LeadsCons(s2, Execute(t), steps, stray);
    steps := [Execute(t)] + steps;
    LeadsCons(s1, Acquire(t), steps, stray);
    steps := [Acquire(t)] + steps;
    LeadsCons(s, purge, steps, stray);
    steps := [purge] + steps;
  }

  lemma PurgeDeletes(s: State, t: TaskId, writes: seq<Write>) returns (s': State)
    requires s.lock == Some(t) && t in s.tasks && s.tasks[t] == Task(Plain, writes, 0, false)
    requires |writes| == 2 && writes[0].DeleteAttempts?
    ensures Enabled(s, Execute(t)) && s' == Apply(s, Execute(t))
    ensures s'.lock == s.lock && s'.committed == s.committed && s'.view == ApplyWrite(s.view, writes[0])
    ensures s'.pending == s.pending + [Tagged(t, writes[0])]
    ensures s'.tasks == s.tasks[t := Task(Plain, writes, 1, false)]
  {
    RunExtends(s, t);
    s' := Apply(s, Execute(t));
  }

  lemma AttemptStored(j: JobId, attempt: string) returns (steps: seq<Step>, s: State)
    ensures Leads(INIT, steps, s) && AtRest(s, 1) && s.committed == ApplyWrite(EMPTY_DB, InsertAttempt(attempt, j))
  {
    var start := StartPlain(0, InsertAttempt(attempt, j));
    LeadsSnoc(INIT, [], INIT, start);
    steps, s := RunSingle(INIT, [] + [start], Apply(INIT, start), 0, 1);
  }

  // Its first delete stays pending without the lock, and the rollback of the next transaction()
  // block, whoever's it is, undoes it.
  lemma StrayPurgeReached(j: JobId, attempt: string)
    returns (steps: seq<Step>, stray: State, more: seq<Step>, later: State)
    ensures Leads(INIT, steps, stray) && !StrayFree(stray) && stray.lock == None
    ensures attempt in stray.committed.attempts && attempt !in stray.view.attempts
    ensures Leads(stray, more, later) && later.pending == [] && attempt in later.view.attempts
    ensures forall i :: 0 <= i < |more| ==> more[i].task == 2
  {
    var first, s := AttemptStored(j, attempt);
    var rest;
    rest, stray := PurgeStrays(s, 1, j);
    LeadsTrans(INIT, first, s, rest, stray);
    steps := first + rest;
    assert stray.pending[0].task == 1;
    more, later := RollBackNext(stray, 2);
  }

  // Some block that raises at once.
  lemma RollBackNext(s: State, t: TaskId) returns (more: seq<Step>, later: State)
    requires s.lock == None && t !in s.tasks
    ensures Leads(s, more, later) && later.pending == [] && later.view == s.committed
    ensures forall i :: 0 <= i < |more| ==> more[i].task == t
  {
    var start := StartTransaction(t, []);
    var s1 := Apply(s, start);
    var s2 := Apply(s1, Acquire(t));
    later := Apply(s2, Raise(t));
    more := [Raise(t)] + [];
    LeadsCons(s2, Raise(t), [], later);
    LeadsCons(s1, Acquire(t), more, later);
    more := [Acquire(t)] + more;
    LeadsCons(s, start, more, later);
    more := [start] + more;
  }
}
