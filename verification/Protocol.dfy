/** CronPilot as one transition system: the shared tables, the worker's scheduler
    memory with its mutex, and every start of a job in either process, from the cron
    callback or trigger handler that begins it to the goroutine that finishes its row.

    A step is one SQL statement, one critical action of a goroutine, or one clocked
    event of the environment; steps of different tasks interleave freely. */
module Protocol {
  import opened Domain
  import opened Tables
  import opened Scheduler

  /** Where a task stands. Only a scheduled Replace start passes through Holding and
      Flagged: it holds the scheduler's mutex there, with the entry it read. */
  datatype Pc =
    | Begun
    | Holding(seen: Entry)
    | Flagged(seen: Entry)
    | Spawned                                // goroutine started, INSERT still to come
    | Requesting                             // row inserted, doRequest under way
    | Finishing(outcome: Outcome, at: Time)  // doRequest returned, UPDATE still to come
    | Stamping(at: Time)                     // response recorded, last_run_at still to come
    | Returned
    | Refused                                // Forbid said no, or the INSERT failed

  /** `ctx` is the context a scheduled Replace start runs under (None is Background);
      `exec` and `startedAt` are the run's own variables once it has inserted its row,
      `cancelReq` its reqCancel, `watching` its watcher goroutine. */
  datatype Task = Task(source: Origin, job: ExecJob, ctx: Option<CtxId>, pc: Pc, exec: Option<ExecId>, startedAt: Time,
                       cancelReq: bool, watching: bool)

  datatype State = State(db: Tables, worker: Worker, mu: Option<TaskId>, snapshot: Option<seq<DbJob>>,
                         tasks: map<TaskId, Task>)

  datatype Event =
    // the API's job endpoints; policy None is the admin form of the edit
    | CreateJob(row: JobRow)
    | EditJob(id: JobId, request: Request, cronExpr: string, timezone: string, policy: Option<Policy>, now: Time)
    | ChangeStatus(id: JobId, status: JobStatus, now: Time)
    | Delete(ids: set<JobId>)
    // sync: the query, then the part under the mutex
    | Query(rows: seq<DbJob>)
    | Sync(stamps: seq<Time>)
    // a start begins: cron fires a registration, or a trigger endpoint has read the row
    | Fire(t: TaskId, cron: CronId)
    | Trigger(t: TaskId, id: JobId, admin: bool)
    // the policy switch
    | Launch(t: TaskId)
    | Check(t: TaskId, readOk: bool)
    | Lock(t: TaskId)
    | Flag(t: TaskId)
    | Store(t: TaskId)
    // the run
    | Insert(t: TaskId, startedAt: Time)
    | Poll(t: TaskId, readOk: bool)
    | StopWatching(t: TaskId)
    | Return(t: TaskId, outcome: Outcome, at: Time)
    | Finish(t: TaskId)
    | Stamp(t: TaskId)

  function Init(db: Tables): State {
    State(db, IDLE, None, None, map[])
  }

  /** scanAdminJob does not read concurrency_policy: an admin trigger always runs. */
  function Triggered(id: JobId, row: JobRow, admin: bool): ExecJob {
    ExecJob(id, row.request, if admin then Other("") else row.policy)
  }

  /** The run's request context is done. */
  predicate Interrupted(s: State, task: Task) {
    || task.cancelReq
    || task.pc.Returned?
    || (task.ctx.Some? && task.ctx.value in s.worker.cancelled)
  }

  /** A sync query returns active rows, each once; a row that fails to scan is missing. */
  predicate IsSnapshot(db: Tables, rows: seq<DbJob>) {
    && Distinct(rows)
    && forall k | 0 <= k < |rows| ::
         var id := rows[k].job.id;
         id in db.jobs && db.jobs[id].status == Active && rows[k] == ToDbJob(id, db.jobs[id])
  }

  predicate At(s: State, t: TaskId) { t in s.tasks }

  predicate Enabled(s: State, e: Event) {
    match e
    case CreateJob(row) => 0 < row.updatedAt && row.lastRunAt == None && row.status == Active
    case EditJob(id, _, _, _, _, now) => id in s.db.jobs && 0 < now
    case ChangeStatus(id, status, now) => id in s.db.jobs && s.db.jobs[id].status != status && 0 < now
    case Delete(ids) => true
    case Query(rows) => s.snapshot == None && IsSnapshot(s.db, rows)
    case Sync(stamps) => s.snapshot.Some? && |stamps| == |s.snapshot.value| && s.mu == None
    case Fire(t, cron) => !At(s, t) && cron in s.worker.live
    case Trigger(t, id, admin) => !At(s, t) && id in s.db.jobs
    case Launch(t) => At(s, t) && s.tasks[t].pc.Begun? && s.tasks[t].job.policy.Other?
    case Check(t, _) => At(s, t) && s.tasks[t].pc.Begun? && s.tasks[t].job.policy.Forbid?
    case Lock(t) => At(s, t) && s.tasks[t].pc.Begun? && s.tasks[t].job.policy.Replace? && s.tasks[t].source == Tick && s.mu == None
    case Flag(t) => At(s, t) && (s.tasks[t].pc.Holding? || (s.tasks[t].pc.Begun? && s.tasks[t].job.policy.Replace? && s.tasks[t].source == Manual))
    case Store(t) => At(s, t) && s.tasks[t].pc.Flagged?
    case Insert(t, _) => At(s, t) && s.tasks[t].pc.Spawned?
    case Poll(t, _) => At(s, t) && s.tasks[t].watching
    case StopWatching(t) => At(s, t) && s.tasks[t].watching && Interrupted(s, s.tasks[t])
    case Return(t, o, _) => At(s, t) && s.tasks[t].pc.Requesting? && (o.Cancelled? ==> Interrupted(s, s.tasks[t]))
    case Finish(t) => At(s, t) && s.tasks[t].pc.Finishing?
    case Stamp(t) => At(s, t) && s.tasks[t].pc.Stamping?
  }

  function Put(s: State, t: TaskId, task: Task): State {
    s.(tasks := s.tasks[t := task])
  }

  function Move(s: State, t: TaskId, pc: Pc): State
    requires At(s, t)
  {
    Put(s, t, s.tasks[t].(pc := pc))
  }

  function DoFlag(s: State, t: TaskId): State
    requires At(s, t)
  {
    var task := s.tasks[t];
    Move(s.(db := FlagRunning(s.db, task.job.id)), t, if task.pc.Holding? then Flagged(task.pc.seen) else Spawned)
  }

  function DoLock(s: State, t: TaskId): State
    requires At(s, t)
  {
    var seen := Lookup(s.worker.entries, s.tasks[t].job.id);
    Move(s.(worker := CancelStored(s.worker, seen), mu := Some(t)), t, Holding(seen))
  }

  function DoStore(s: State, t: TaskId): State
    requires At(s, t) && s.tasks[t].pc.Flagged?
  {
    var task := s.tasks[t];
    Put(s.(worker := StoreContext(s.worker, task.job.id, task.pc.seen), mu := None),
        t, task.(ctx := Some(s.worker.nextCtx), pc := Spawned))
  }

  /** The foreign key refuses the row of a job that is gone. */
  function DoInsert(s: State, t: TaskId, startedAt: Time): State
    requires At(s, t)
  {
    var task := s.tasks[t];
    if task.job.id in s.db.jobs
    then Put(s.(db := InsertExec(s.db, task.job.id, task.source, startedAt)), t,
             task.(pc := Requesting, exec := Some(s.db.nextExec), startedAt := startedAt, watching := true))
    else Move(s, t, Refused)
  }

  function DoPoll(s: State, t: TaskId, readOk: bool): State
    requires At(s, t)
  {
    var task := s.tasks[t];
    if readOk && task.exec.Some? && task.exec.value in s.db.execs && s.db.execs[task.exec.value].cancelRequested
    then Put(s, t, task.(cancelReq := true, watching := false))
    else s
  }

  function DoFinish(s: State, t: TaskId): State
    requires At(s, t) && s.tasks[t].pc.Finishing?
  {
    var task := s.tasks[t];
    var Finishing(o, at) := task.pc;
    Move(if task.exec.Some? then s.(db := FinishExec(s.db, task.exec.value, o, at, at - task.startedAt)) else s,
         t, if o.Response? then Stamping(at) else Returned)
  }

  function Next(s: State, e: Event, parses: Parses): State
    requires Enabled(s, e)
  {
    match e
    case CreateJob(row) => s.(db := InsertJob(s.db, row))
    case EditJob(id, request, cronExpr, timezone, policy, now) =>
      s.(db := UpdateJob(s.db, id, request, cronExpr, timezone, policy, now))
    case ChangeStatus(id, status, now) => s.(db := SetJobStatus(s.db, id, status, now))
    case Delete(ids) => s.(db := DeleteJobs(s.db, ids))
    case Query(rows) => s.(snapshot := Some(rows))
    case Sync(stamps) => s.(worker := Reconcile(s.worker, s.snapshot.value, stamps, parses), snapshot := None)
    case Fire(t, cron) => Put(s, t, Task(Tick, s.worker.live[cron].job, None, Begun, None, 0, false, false))
    case Trigger(t, id, admin) =>
      Put(s, t, Task(Manual, Triggered(id, s.db.jobs[id], admin), None, Begun, None, 0, false, false))
    case Launch(t) => Move(s, t, Spawned)
    case Check(t, readOk) =>
      Move(s, t, if readOk && RunningRows(s.db, s.tasks[t].job.id) != {} then Refused else Spawned)
    case Lock(t) => DoLock(s, t)
    case Flag(t) => DoFlag(s, t)
    case Store(t) => DoStore(s, t)
    case Insert(t, startedAt) => DoInsert(s, t, startedAt)
    case Poll(t, readOk) => DoPoll(s, t, readOk)
    case StopWatching(t) => Put(s, t, s.tasks[t].(watching := false))
    case Return(t, o, at) => Move(s, t, Finishing(o, at))
    case Finish(t) => DoFinish(s, t)
    case Stamp(t) => Move(s.(db := StampLastRun(s.db, s.tasks[t].job.id, s.tasks[t].pc.at)), t, Returned)
  }

  /** The task whose own step `e` is. */
  function Actor(e: Event): Option<TaskId> {
    match e
    case Fire(t, _) => Some(t)
    case Trigger(t, _, _) => Some(t)
    case Launch(t) => Some(t)
    case Check(t, _) => Some(t)
    case Lock(t) => Some(t)
    case Flag(t) => Some(t)
    case Store(t) => Some(t)
    case Insert(t, _) => Some(t)
    case Poll(t, _) => Some(t)
    case StopWatching(t) => Some(t)
    case Return(t, _, _) => Some(t)
    case Finish(t) => Some(t)
    case Stamp(t) => Some(t)
    case _ => None
  }

  /** Steps of the job endpoints: the only ones that change what a sync query returns. */
  predicate EditsRows(e: Event) {
    e.CreateJob? || e.EditJob? || e.ChangeStatus? || e.Delete?
  }

  /** Steps that write executions, or a job's last_run_at. */
  predicate WritesRows(e: Event) {
    e.Flag? || e.Insert? || e.Finish? || e.Stamp?
  }

  /** Steps that change the scheduler's memory or its mutex. */
  predicate TouchesWorker(e: Event) {
    e.Sync? || e.Lock? || e.Store?
  }

  lemma OthersLeaveTask(s: State, e: Event, parses: Parses, t: TaskId)
    requires Enabled(s, e) && Actor(e) != Some(t)
    ensures At(Next(s, e, parses), t) <==> At(s, t)
    ensures At(s, t) ==> Next(s, e, parses).tasks[t] == s.tasks[t]
  {
  }

  /** A run of the system: `states[i+1]` is `states[i]` after `events[i]`. */
  datatype Behavior = Behavior(states: seq<State>, events: seq<Event>)

  ghost predicate Initial(s: State) {
    && TablesOk(s.db) && s == Init(s.db)
    && forall x | x in s.db.execs :: s.db.execs[x].status != Running
  }

  ghost predicate IsBehavior(b: Behavior, parses: Parses) {
    && |b.states| == |b.events| + 1
    && Initial(b.states[0])
    && forall i | 0 <= i < |b.events| :: StepAt(b, i, parses)
  }

  ghost predicate StepAt(b: Behavior, i: nat, parses: Parses)
    requires i < |b.events| && |b.states| == |b.events| + 1
  {
    Enabled(b.states[i], b.events[i]) && b.states[i + 1] == Next(b.states[i], b.events[i], parses)
  }

  ghost function Last(b: Behavior): State
    requires |b.states| == |b.events| + 1
  {
    b.states[|b.events|]
  }

  /** One more step at the end of a behaviour. */
  lemma Extend(b: Behavior, e: Event, parses: Parses) returns (c: Behavior)
    requires IsBehavior(b, parses) && Enabled(Last(b), e)
    ensures IsBehavior(c, parses) && c.events == b.events + [e] && c.states == b.states + [Next(Last(b), e, parses)]
  {
    c := Behavior(b.states + [Next(Last(b), e, parses)], b.events + [e]);
    forall i | 0 <= i < |c.events|
      ensures StepAt(c, i, parses)
    {
      if i < |b.events| { assert StepAt(b, i, parses); }
    }
  }

  // ---- the invariant ----

  predicate HasRow(pc: Pc) {
    pc.Requesting? || pc.Finishing? || pc.Stamping? || pc.Returned?
  }

  predicate InFlight(pc: Pc) {
    pc.Requesting? || pc.Finishing?
  }

  predicate InLock(pc: Pc) {
    pc.Holding? || pc.Flagged?
  }

  ghost predicate TaskOk(s: State, t: TaskId)
    requires t in s.tasks
  {
    var task := s.tasks[t];
    && task.job.id < s.db.nextJob
    && (task.exec.Some? <==> HasRow(task.pc))
    && (task.exec.Some? ==> RowMatches(s.db, task))
    && (task.watching || task.cancelReq ==> HasRow(task.pc))
    && (InFlight(task.pc) && !task.watching ==> Interrupted(s, task))
    && (InLock(task.pc) <==> s.mu == Some(t))
    && (InLock(task.pc) ==> HoldsLock(s, task))
    && (task.ctx.Some? ==> HasContext(s, task))
    && (task.source == Tick && task.job.policy.Replace? && !task.pc.Begun? && !InLock(task.pc) ==> task.ctx.Some?)
  }

  /** A Replace start inside its locked section: the entry it read is still the
      current one, and the context it found there is cancelled. */
  ghost predicate HoldsLock(s: State, task: Task)
    requires InLock(task.pc)
  {
    && task.source == Tick && task.job.policy.Replace?
    && task.pc.seen == Lookup(s.worker.entries, task.job.id)
    && (task.pc.seen.cancelFn.Some? ==> task.pc.seen.cancelFn.value in s.worker.cancelled)
  }

  ghost predicate HasContext(s: State, task: Task)
    requires task.ctx.Some?
  {
    && task.source == Tick && task.job.policy.Replace? && !task.pc.Begun? && !InLock(task.pc)
    && task.ctx.value < s.worker.nextCtx
    && Held(s.worker, task.job.id, task.ctx.value)
  }

  /** The context is cancelled, or the job's entry still holds its cancel function. */
  ghost predicate Held(w: Worker, id: JobId, c: CtxId) {
    c in w.cancelled || (id in w.entries && w.entries[id].cancelFn == Some(c))
  }

  /** The row a run inserted: running until the run finishes it, unless the job went. */
  ghost predicate RowMatches(db: Tables, task: Task)
    requires task.exec.Some?
  {
    var x := task.exec.value;
    && x < db.nextExec
    && (x in db.execs ==>
          && db.execs[x].jobId == task.job.id && db.execs[x].triggeredBy == task.source && db.execs[x].startedAt == task.startedAt
          && (db.execs[x].status == Running <==> InFlight(task.pc))
          && (task.pc.Stamping? ==> RespondedAt(db, task.job.id, x, task.pc.at)))
    && (x !in db.execs ==> task.job.id !in db.jobs)
  }

  ghost predicate Unshared(s: State, t: TaskId, u: TaskId)
    requires t in s.tasks && u in s.tasks
  {
    t != u ==>
      && (s.tasks[t].exec.Some? ==> s.tasks[u].exec != s.tasks[t].exec)
      && (s.tasks[t].ctx.Some? ==> s.tasks[u].ctx != s.tasks[t].ctx)
  }

  ghost predicate Runs(s: State, t: TaskId, x: ExecId) {
    t in s.tasks && s.tasks[t].exec == Some(x) && InFlight(s.tasks[t].pc)
  }

  /** Whoever an entry's cancel function belongs to is a start of that job. */
  ghost predicate CtxOwned(s: State, id: JobId)
    requires id in s.worker.entries
  {
    var fn := s.worker.entries[id].cancelFn;
    fn.Some? ==> exists t :: t in s.tasks && s.tasks[t].ctx == fn && s.tasks[t].job.id == id
  }

  ghost predicate SnapshotOk(s: State) {
    s.snapshot.Some? ==>
      && Distinct(s.snapshot.value) && Dated(s.snapshot.value)
      && forall k | 0 <= k < |s.snapshot.value| :: s.snapshot.value[k].job.id < s.db.nextJob
  }

  ghost predicate WorkerOk(s: State, parses: Parses) {
    && Linked(s.worker, parses)
    && (forall c | c in s.worker.live :: s.worker.live[c].job.id < s.db.nextJob)
    && (forall c | c in s.worker.cancelled :: c < s.worker.nextCtx)
    && (forall id | id in s.worker.entries :: CtxOwned(s, id))
    && (s.mu.Some? ==> s.mu.value in s.tasks && InLock(s.tasks[s.mu.value].pc))
  }

  ghost predicate RunningOwned(s: State) {
    forall x | x in s.db.execs && s.db.execs[x].status == Running :: exists t :: Runs(s, t, x)
  }

  ghost predicate Inv(s: State, parses: Parses) {
    && TablesOk(s.db)
    && WorkerOk(s, parses)
    && SnapshotOk(s)
    && (forall t | t in s.tasks :: TaskOk(s, t))
    && (forall t, u | t in s.tasks && u in s.tasks :: Unshared(s, t, u))
    && RunningOwned(s)
  }
}
