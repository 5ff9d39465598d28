/** The invariant of Protocol holds in every state of every behaviour. */
module Invariants {
  import opened Domain
  import opened Tables
  import opened Scheduler
  import opened Protocol

  lemma {:induction false} TablesStep(s: State, e: Event, parses: Parses)
    requires Inv(s, parses) && Enabled(s, e)
    ensures TablesOk(Next(s, e, parses).db) && RowsEvolve(s.db, Next(s, e, parses).db)
  {
    if EditsRows(e) { EditTablesStep(s, e, parses); } else if WritesRows(e) { WriteTablesStep(s, e, parses); }
  }

  lemma EditTablesStep(s: State, e: Event, parses: Parses)
    requires Inv(s, parses) && Enabled(s, e) && EditsRows(e)
    ensures TablesOk(Next(s, e, parses).db) && RowsEvolve(s.db, Next(s, e, parses).db)
  {
    match e
    case CreateJob(row) => InsertJobKeeps(s.db, row);
    case EditJob(id, request, cronExpr, timezone, policy, now) =>
      UpdateJobKeeps(s.db, id, request, cronExpr, timezone, policy, now);
    case ChangeStatus(id, status, now) => SetJobStatusKeeps(s.db, id, status, now);
    case Delete(ids) => DeleteJobsKeeps(s.db, ids);
  }

  lemma WriteTablesStep(s: State, e: Event, parses: Parses)
    requires Inv(s, parses) && Enabled(s, e) && WritesRows(e)
    ensures TablesOk(Next(s, e, parses).db) && RowsEvolve(s.db, Next(s, e, parses).db)
  {
    match e
    case Flag(t) => FlagRunningKeeps(s.db, s.tasks[t].job.id);
    case Insert(t, startedAt) =>
      if s.tasks[t].job.id in s.db.jobs {
        InsertExecKeeps(s.db, s.tasks[t].job.id, s.tasks[t].source, startedAt);
      }
    case Finish(t) => assert TaskOk(s, t); FinishTablesStep(s, t, parses);
    case Stamp(t) => assert TaskOk(s, t); StampTablesStep(s, t, parses);
  }

  lemma FinishTablesStep(s: State, t: TaskId, parses: Parses)
    requires TablesOk(s.db) && Enabled(s, Finish(t)) && TaskOk(s, t)
    ensures TablesOk(Next(s, Finish(t), parses).db) && RowsEvolve(s.db, Next(s, Finish(t), parses).db)
  {
    var task := s.tasks[t];
    FinishExecKeeps(s.db, task.exec.value, task.pc.outcome, task.pc.at, task.pc.at - task.startedAt);
  }

  lemma StampTablesStep(s: State, t: TaskId, parses: Parses)
    requires TablesOk(s.db) && Enabled(s, Stamp(t)) && TaskOk(s, t)
    ensures TablesOk(Next(s, Stamp(t), parses).db) && RowsEvolve(s.db, Next(s, Stamp(t), parses).db)
  {
    StampLastRunKeeps(s.db, s.tasks[t].job.id, s.tasks[t].pc.at);
  }

  /** What a step can do to a task that already exists. */
  ghost predicate Changes(s: State, before: Task, after: Task, cancelled: set<CtxId>) {
    && after.job == before.job && after.source == before.source
    && (before.exec.Some? ==> after.exec == before.exec)
    && (after.exec.Some? && before.exec == None ==> after.exec.value == s.db.nextExec)
    && (before.ctx.Some? ==> after.ctx == before.ctx)
    && (after.ctx.Some? && before.ctx == None ==> after.ctx.value == s.worker.nextCtx && after.ctx.value !in cancelled)
    && (after.cancelReq && !before.cancelReq ==>
          after.exec == before.exec && after.exec.Some?
          && after.exec.value in s.db.execs && s.db.execs[after.exec.value].cancelRequested)
    && (after.pc.Finishing? && after.pc != before.pc && after.pc.outcome.Cancelled? ==>
          before.pc.Requesting? && Interrupted(s, before))
  }

  lemma OwnChanges(s: State, e: Event, parses: Parses, t: TaskId)
    requires Inv(s, parses) && Enabled(s, e) && t in s.tasks && Actor(e) == Some(t)
    ensures t in Next(s, e, parses).tasks
    ensures Changes(s, s.tasks[t], Next(s, e, parses).tasks[t], Next(s, e, parses).worker.cancelled)
  {
    assert TaskOk(s, t);
  }

  lemma TaskChanges(s: State, e: Event, parses: Parses, t: TaskId)
    requires Inv(s, parses) && Enabled(s, e) && t in s.tasks
    ensures t in Next(s, e, parses).tasks
    ensures Changes(s, s.tasks[t], Next(s, e, parses).tasks[t], Next(s, e, parses).worker.cancelled)
  {
    if Actor(e) == Some(t) { OwnChanges(s, e, parses, t); } else { OthersLeaveTask(s, e, parses, t); }
  }

  /** A task begins at a firing or a trigger, with no row and no context. */
  lemma NewTask(s: State, e: Event, parses: Parses, t: TaskId)
    requires Enabled(s, e) && t !in s.tasks && t in Next(s, e, parses).tasks
    ensures Actor(e) == Some(t)
    ensures Next(s, e, parses).tasks[t].pc.Begun?
    ensures Next(s, e, parses).tasks[t].exec == None && Next(s, e, parses).tasks[t].ctx == None
  {
  }

  /** A step of another task, or of none, leaves this task in order. */
  lemma OtherQuietStep(s: State, e: Event, u: TaskId, parses: Parses)
    requires Inv(s, parses) && Enabled(s, e) && u in s.tasks && Actor(e) != Some(u)
    requires !EditsRows(e) && !WritesRows(e) && !TouchesWorker(e)
    ensures u in Next(s, e, parses).tasks && TaskOk(Next(s, e, parses), u)
  {
    assert TaskOk(s, u);
  }

  lemma OtherEditStep(s: State, e: Event, u: TaskId, parses: Parses)
    requires Inv(s, parses) && Enabled(s, e) && u in s.tasks && EditsRows(e)
    ensures u in Next(s, e, parses).tasks && TaskOk(Next(s, e, parses), u)
  {
    assert TaskOk(s, u);
  }

  lemma OtherWriteStep(s: State, e: Event, u: TaskId, parses: Parses)
    requires Inv(s, parses) && Enabled(s, e) && u in s.tasks && Actor(e) != Some(u) && WritesRows(e)
    ensures u in Next(s, e, parses).tasks && TaskOk(Next(s, e, parses), u)
  {
    assert TaskOk(s, u) && TaskOk(s, e.t) && Unshared(s, e.t, u);
  }

  lemma OtherWorkerStep(s: State, e: Event, u: TaskId, parses: Parses)
    requires Inv(s, parses) && Enabled(s, e) && u in s.tasks && Actor(e) != Some(u) && TouchesWorker(e)
    ensures u in Next(s, e, parses).tasks && TaskOk(Next(s, e, parses), u)
  {
    assert TaskOk(s, u);
    if e.Sync? {
      ReconcileCarries(s.worker, s.snapshot.value, e.stamps, parses);
      if s.tasks[u].job.id in s.worker.entries {
        assert KeptOrCancelled(s.worker, Next(s, e, parses).worker, s.tasks[u].job.id);
      }
    } else {
      assert TaskOk(s, e.t);
    }
  }

  lemma OtherTaskStep(s: State, e: Event, u: TaskId, parses: Parses)
    requires Inv(s, parses) && Enabled(s, e) && u in s.tasks && Actor(e) != Some(u)
    ensures u in Next(s, e, parses).tasks && TaskOk(Next(s, e, parses), u)
  {
    if EditsRows(e) {
      OtherEditStep(s, e, u, parses);
    } else if WritesRows(e) {
      OtherWriteStep(s, e, u, parses);
    } else if TouchesWorker(e) {
      OtherWorkerStep(s, e, u, parses);
    } else {
      OtherQuietStep(s, e, u, parses);
    }
  }

  /** The actor's own step, up to the moment its goroutine starts. */
  lemma OwnStartStep(s: State, e: Event, t: TaskId, parses: Parses)
    requires Inv(s, parses) && Enabled(s, e) && Actor(e) == Some(t)
    requires e.Fire? || e.Trigger? || e.Launch? || e.Check? || e.Lock? || e.Flag? || e.Store?
    ensures t in Next(s, e, parses).tasks && TaskOk(Next(s, e, parses), t)
  {
    if t in s.tasks {
      assert TaskOk(s, t);
    } else {
      assert s.mu != Some(t);
      assert e.Trigger? ==> JobOk(s.db, e.id);
    }
  }

  /** The actor's own step in run while its row is running, its first and its last. */
  lemma OwnRunStep(s: State, e: Event, t: TaskId, parses: Parses)
    requires Inv(s, parses) && Enabled(s, e) && Actor(e) == Some(t)
    requires e.Insert? || e.Poll? || e.StopWatching? || e.Return?
    ensures t in Next(s, e, parses).tasks && TaskOk(Next(s, e, parses), t)
  {
    assert TaskOk(s, t);
  }

  lemma OwnEndStep(s: State, e: Event, t: TaskId, parses: Parses)
    requires Inv(s, parses) && Enabled(s, e) && Actor(e) == Some(t) && (e.Finish? || e.Stamp?)
    ensures t in Next(s, e, parses).tasks && TaskOk(Next(s, e, parses), t)
  {
    assert TaskOk(s, t);
  }

  lemma TasksStep(s: State, e: Event, parses: Parses)
    requires Inv(s, parses) && Enabled(s, e)
    ensures forall u | u in Next(s, e, parses).tasks :: TaskOk(Next(s, e, parses), u)
  {
    forall u | u in Next(s, e, parses).tasks
      ensures TaskOk(Next(s, e, parses), u)
    {
      if Actor(e) != Some(u) {
        OtherTaskStep(s, e, u, parses);
      } else if e.Fire? || e.Trigger? || e.Launch? || e.Check? || e.Lock? || e.Flag? || e.Store? {
        OwnStartStep(s, e, u, parses);
      } else if e.Finish? || e.Stamp? {
        OwnEndStep(s, e, u, parses);
      } else {
        OwnRunStep(s, e, u, parses);
      }
    }
  }

  lemma UnsharedStep(s: State, e: Event, parses: Parses)
    requires Inv(s, parses) && Enabled(s, e)
    ensures forall t, u | t in Next(s, e, parses).tasks && u in Next(s, e, parses).tasks :: Unshared(Next(s, e, parses), t, u)
  {
    var s' := Next(s, e, parses);
    forall t, u | t in s'.tasks && u in s'.tasks
      ensures Unshared(s', t, u)
    {
      if t in s.tasks { assert TaskOk(s, t); TaskChanges(s, e, parses, t); } else { NewTask(s, e, parses, t); }
      if u in s.tasks { assert TaskOk(s, u); TaskChanges(s, e, parses, u); } else { NewTask(s, e, parses, u); }
      if t in s.tasks && u in s.tasks && t != u {
        assert Unshared(s, t, u);
        if Actor(e) == Some(t) { OthersLeaveTask(s, e, parses, u); } else { OthersLeaveTask(s, e, parses, t); }
      }
    }
  }

  /** Only the INSERT of a run makes a row running. */
  lemma RowsStart(s: State, e: Event, x: ExecId, parses: Parses)
    requires Inv(s, parses) && Enabled(s, e)
    ensures x in Next(s, e, parses).db.execs && Next(s, e, parses).db.execs[x].status == Running ==>
              (x in s.db.execs && s.db.execs[x].status == Running) || (e.Insert? && Runs(Next(s, e, parses), e.t, x))
  {
    if WritesRows(e) {
      RowsStartWrite(s, e, x, parses);
    } else {
      assert x in Next(s, e, parses).db.execs ==> x in s.db.execs && Next(s, e, parses).db.execs[x] == s.db.execs[x];
    }
  }

  lemma RowsStartWrite(s: State, e: Event, x: ExecId, parses: Parses)
    requires TablesOk(s.db) && Enabled(s, e) && WritesRows(e)
    ensures x in Next(s, e, parses).db.execs && Next(s, e, parses).db.execs[x].status == Running ==>
              (x in s.db.execs && s.db.execs[x].status == Running) || (e.Insert? && Runs(Next(s, e, parses), e.t, x))
  {
    assert x in s.db.execs ==> ExecOk(s.db, x);
  }

  /** A run in flight stays in flight while its row is running. */
  lemma RunsOn(s: State, e: Event, x: ExecId, t: TaskId, parses: Parses)
    requires Inv(s, parses) && Enabled(s, e) && Runs(s, t, x)
    ensures x in Next(s, e, parses).db.execs && Next(s, e, parses).db.execs[x].status == Running ==> Runs(Next(s, e, parses), t, x)
  {
    assert TaskOk(s, t);
    if Actor(e) != Some(t) { OthersLeaveTask(s, e, parses, t); }
  }

  lemma OwnedStep(s: State, e: Event, parses: Parses)
    requires Inv(s, parses) && Enabled(s, e)
    ensures RunningOwned(Next(s, e, parses))
  {
    var s' := Next(s, e, parses);
    forall x | x in s'.db.execs && s'.db.execs[x].status == Running
      ensures exists t :: Runs(s', t, x)
    {
      RowsStart(s, e, x, parses);
      if x in s.db.execs && s.db.execs[x].status == Running {
        var t :| Runs(s, t, x);
        RunsOn(s, e, x, t, parses);
      }
    }
  }

  /** Only sync and the two ends of the locked section touch the scheduler's memory. */
  lemma OthersLeaveWorker(s: State, e: Event, parses: Parses)
    requires Enabled(s, e) && !TouchesWorker(e)
    ensures Next(s, e, parses).worker == s.worker && Next(s, e, parses).mu == s.mu
    ensures s.db.nextJob <= Next(s, e, parses).db.nextJob
  {
  }

  /** The mutex is left only by Store. */
  lemma LockKept(s: State, e: Event, parses: Parses, t: TaskId)
    requires Inv(s, parses) && Enabled(s, e) && !TouchesWorker(e) && t in s.tasks && InLock(s.tasks[t].pc)
    ensures t in Next(s, e, parses).tasks && InLock(Next(s, e, parses).tasks[t].pc)
  {
    assert TaskOk(s, t);
    if Actor(e) != Some(t) { OthersLeaveTask(s, e, parses, t); }
  }

  lemma OthersWorkerStep(s: State, e: Event, parses: Parses)
    requires Inv(s, parses) && Enabled(s, e) && !TouchesWorker(e)
    ensures WorkerOk(Next(s, e, parses), parses)
  {
    OthersLeaveWorker(s, e, parses);
    var s' := Next(s, e, parses);
    if s.mu.Some? { LockKept(s, e, parses, s.mu.value); }
    forall id | id in s'.worker.entries
      ensures CtxOwned(s', id)
    {
      assert CtxOwned(s, id);
      var fn := s.worker.entries[id].cancelFn;
      if fn.Some? {
        var t :| t in s.tasks && s.tasks[t].ctx == fn && s.tasks[t].job.id == id;
        TaskChanges(s, e, parses, t);
        assert t in s'.tasks && s'.tasks[t].ctx == fn;
      }
    }
  }

  lemma LockedWorkerStep(s: State, e: Event, parses: Parses)
    requires Inv(s, parses) && Enabled(s, e) && (e.Lock? || e.Store?)
    ensures WorkerOk(Next(s, e, parses), parses)
  {
    var s' := Next(s, e, parses);
    assert TaskOk(s, e.t);
    var own := s.tasks[e.t].job.id;
    StoreLinked(s.worker, own, parses);
    if own in s.worker.entries { assert EntryOk(s.worker, own); }
    forall id | id in s'.worker.entries
      ensures CtxOwned(s', id)
    {
      if e.Store? && id == own {
        assert s'.tasks[e.t].ctx == s'.worker.entries[id].cancelFn;
      } else {
        assert CtxOwned(s, id);
        var fn := s.worker.entries[id].cancelFn;
        if fn.Some? {
          var t :| t in s.tasks && s.tasks[t].ctx == fn && s.tasks[t].job.id == id;
          assert TaskOk(s, t);
          assert t in s'.tasks && s'.tasks[t].ctx == fn;
        }
      }
    }
  }

  lemma SyncStep(s: State, stamps: seq<Time>, parses: Parses)
    requires Inv(s, parses) && Enabled(s, Sync(stamps))
    ensures WorkerOk(Next(s, Sync(stamps), parses), parses)
  {
    var rows := s.snapshot.value;
    var s' := Next(s, Sync(stamps), parses);
    ReconcileCarries(s.worker, rows, stamps, parses);
    ReconcileLinked(s.worker, rows, stamps, parses);
    ReconcileEffect(s.worker, rows, stamps, parses);
    forall c | c in s'.worker.cancelled
      ensures c < s'.worker.nextCtx
    {
      if c !in s.worker.cancelled {
        var id :| Dropped(s.worker, s'.worker, id, c);
        assert EntryOk(s.worker, id);
      }
    }
    forall c | c in s'.worker.live
      ensures s'.worker.live[c].job.id < s'.db.nextJob
    {
      assert LiveOk(s'.worker, c, parses);
      assert s'.worker.live[c].job.id in Ids(rows);
    }
    forall id | id in s'.worker.entries
      ensures CtxOwned(s', id)
    {
      if s'.worker.entries[id].cancelFn.Some? {
        assert CtxOwned(s, id);
        var t :| t in s.tasks && s.tasks[t].ctx == s'.worker.entries[id].cancelFn && s.tasks[t].job.id == id;
        assert t in s'.tasks;
      }
    }
  }

  lemma WorkerStep(s: State, e: Event, parses: Parses)
    requires Inv(s, parses) && Enabled(s, e)
    ensures WorkerOk(Next(s, e, parses), parses)
  {
    match e
    case Sync(stamps) => SyncStep(s, stamps, parses);
    case Lock(_) => LockedWorkerStep(s, e, parses);
    case Store(_) => LockedWorkerStep(s, e, parses);
    case _ => OthersWorkerStep(s, e, parses);
  }

  lemma SnapshotStep(s: State, e: Event, parses: Parses)
    requires Inv(s, parses) && Enabled(s, e)
    ensures SnapshotOk(Next(s, e, parses))
  {
    if e.Query? {
      forall k | 0 <= k < |e.rows|
        ensures e.rows[k].job.id < s.db.nextJob && 0 < e.rows[k].updatedAt
      {
        assert JobOk(s.db, e.rows[k].job.id);
      }
    }
  }

  /** Every step keeps the invariant. */
  lemma {:induction false} InvStep(s: State, e: Event, parses: Parses)
    requires Inv(s, parses) && Enabled(s, e)
    ensures Inv(Next(s, e, parses), parses)
  {
    TablesStep(s, e, parses);
    TasksStep(s, e, parses);
    UnsharedStep(s, e, parses);
    OwnedStep(s, e, parses);
    WorkerStep(s, e, parses);
    SnapshotStep(s, e, parses);
  }

  /** Every state of every behaviour satisfies the invariant. */
  lemma {:induction false} InvAlways(b: Behavior, parses: Parses, i: nat)
    requires IsBehavior(b, parses) && i < |b.states|
    ensures Inv(b.states[i], parses)
  {
    if i != 0 {
      InvAlways(b, parses, i - 1);
      assert StepAt(b, i - 1, parses);
      InvStep(b.states[i - 1], b.events[i - 1], parses);
    }
  }
}
