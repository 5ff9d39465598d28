/** Why a run was cancelled: every cancellation traces back to an earlier step of the
    behaviour that asked for it. */
module Provenance {
  import opened Domain
  import opened Tables
  import opened Scheduler
  import opened Protocol
  import opened Invariants

  /** Step `k` sets the cancel flag of row `x`: a Replace start of the row's own job,
      scheduled or manual, while the row is running. */
  ghost predicate FlagsRow(b: Behavior, k: nat, x: ExecId) {
    && k < |b.events| && k < |b.states|
    && var s, e := b.states[k], b.events[k];
    && e.Flag? && At(s, e.t) && s.tasks[e.t].job.policy.Replace?
    && x in s.db.execs && s.db.execs[x].status == Running && s.db.execs[x].jobId == s.tasks[e.t].job.id
  }

  /** Step `k` cancels context `c` of job `id`: the locked section of another scheduled
      Replace start of that job, or a pass of sync that removes or reschedules its entry. */
  ghost predicate CancelsContext(b: Behavior, k: nat, id: JobId, c: CtxId) {
    && k < |b.events| && k + 1 < |b.states|
    && var s, e := b.states[k], b.events[k];
    || (e.Lock? && At(s, e.t) && s.tasks[e.t].job.id == id && s.tasks[e.t].source == Tick
        && s.tasks[e.t].job.policy.Replace? && s.tasks[e.t].ctx == None
        && Lookup(s.worker.entries, id).cancelFn == Some(c))
    || (e.Sync? && Dropped(s.worker, b.states[k + 1].worker, id, c))
  }

  ghost predicate WasFlagged(b: Behavior, i: nat, x: ExecId) {
    exists k: nat :: k < i && FlagsRow(b, k, x)
  }

  ghost predicate WasCancelled(b: Behavior, i: nat, id: JobId, c: CtxId) {
    exists k: nat :: k < i && CancelsContext(b, k, id, c)
  }

  /** A task's own cancellation, or that of its context, has its cause before `i`. */
  ghost predicate Explained(b: Behavior, i: nat, t: TaskId) {
    && i < |b.states| && t in b.states[i].tasks
    && var task := b.states[i].tasks[t];
    && (task.cancelReq ==> task.exec.Some? && WasFlagged(b, i, task.exec.value))
    && (task.ctx.Some? && task.ctx.value in b.states[i].worker.cancelled ==> WasCancelled(b, i, task.job.id, task.ctx.value))
    && (task.pc.Finishing? && task.pc.outcome.Cancelled? ==> Caused(b, i, task))
  }

  ghost predicate Caused(b: Behavior, i: nat, task: Task) {
    || (task.exec.Some? && WasFlagged(b, i, task.exec.value))
    || (task.ctx.Some? && WasCancelled(b, i, task.job.id, task.ctx.value))
  }

  /** Rows inserted in this behaviour, as opposed to rows found in the tables. */
  ghost predicate New(b: Behavior, x: ExecId) {
    b.states != [] && b.states[0].db.nextExec <= x
  }

  ghost predicate FlagsExplained(b: Behavior, i: nat) {
    i < |b.states| && forall x | x in b.states[i].db.execs && b.states[i].db.execs[x].cancelRequested && New(b, x) :: WasFlagged(b, i, x)
  }

  ghost predicate RowExplained(b: Behavior, i: nat, x: ExecId) {
    i < |b.states| && x in b.states[i].db.execs && New(b, x) && b.states[i].db.execs[x].errorMessage == Some(REPLACED) ==>
      exists t :: t in b.states[i].tasks && b.states[i].tasks[t].exec == Some(x) && Caused(b, i, b.states[i].tasks[t])
  }

  ghost predicate TasksExplained(b: Behavior, i: nat) {
    && i < |b.states|
    && b.states[0].db.nextExec <= b.states[i].db.nextExec
    && (forall t | t in b.states[i].tasks ::
          Explained(b, i, t) && (b.states[i].tasks[t].exec.Some? ==> New(b, b.states[i].tasks[t].exec.value)))
  }

  lemma FlagsStep(b: Behavior, parses: Parses, i: nat)
    requires IsBehavior(b, parses) && 0 < i <= |b.events| && FlagsExplained(b, i - 1)
    ensures FlagsExplained(b, i)
  {
    InvAlways(b, parses, i - 1);
    assert StepAt(b, i - 1, parses);
    var s, e, s' := b.states[i - 1], b.events[i - 1], b.states[i];
    forall x | x in s'.db.execs && s'.db.execs[x].cancelRequested && New(b, x)
      ensures WasFlagged(b, i, x)
    {
      if !(x in s.db.execs && s.db.execs[x].cancelRequested) {
        assert e.Flag? && TaskOk(s, e.t);
        assert FlagsRow(b, i - 1, x);
      }
    }
  }

  /** A context that becomes cancelled in a step is cancelled by that step's actor. */
  lemma ContextCancelled(b: Behavior, parses: Parses, i: nat, t: TaskId)
    requires IsBehavior(b, parses) && 0 < i <= |b.events| && t in b.states[i - 1].tasks
    requires b.states[i - 1].tasks[t].ctx.Some?
    requires b.states[i - 1].tasks[t].ctx.value in b.states[i].worker.cancelled - b.states[i - 1].worker.cancelled
    ensures CancelsContext(b, i - 1, b.states[i - 1].tasks[t].job.id, b.states[i - 1].tasks[t].ctx.value)
  {
    InvAlways(b, parses, i - 1);
    assert StepAt(b, i - 1, parses);
    var s, e := b.states[i - 1], b.events[i - 1];
    var c := s.tasks[t].ctx.value;
    assert e.Lock? || e.Sync?;
    var id: JobId;
    if e.Lock? {
      assert TaskOk(s, e.t);
      id := s.tasks[e.t].job.id;
    } else {
      ReconcileCarries(s.worker, s.snapshot.value, e.stamps, parses);
      id :| Dropped(s.worker, b.states[i].worker, id, c);
    }
    assert CtxOwned(s, id);
    var u :| u in s.tasks && s.tasks[u].ctx == Some(c) && s.tasks[u].job.id == id;
    assert Unshared(s, t, u);
  }

  lemma TaskStep(b: Behavior, parses: Parses, i: nat, t: TaskId)
    requires IsBehavior(b, parses) && 0 < i <= |b.events| && FlagsExplained(b, i - 1) && TasksExplained(b, i - 1)
    requires t in b.states[i - 1].tasks
    ensures t in b.states[i].tasks && Explained(b, i, t)
    ensures b.states[i].tasks[t].exec.Some? ==> New(b, b.states[i].tasks[t].exec.value)
  {
    InvAlways(b, parses, i - 1);
    assert StepAt(b, i - 1, parses);
    var s, s' := b.states[i - 1], b.states[i];
    TaskChanges(s, b.events[i - 1], parses, t);
    assert Explained(b, i - 1, t);
    if s.tasks[t].ctx.Some? && s.tasks[t].ctx.value in s'.worker.cancelled - s.worker.cancelled {
      ContextCancelled(b, parses, i, t);
    }
  }

  lemma TasksStepExplained(b: Behavior, parses: Parses, i: nat)
    requires IsBehavior(b, parses) && 0 < i <= |b.events| && FlagsExplained(b, i - 1) && TasksExplained(b, i - 1)
    ensures TasksExplained(b, i)
  {
    InvAlways(b, parses, i - 1);
    assert StepAt(b, i - 1, parses);
    TablesStep(b.states[i - 1], b.events[i - 1], parses);
    forall t | t in b.states[i].tasks
      ensures Explained(b, i, t) && (b.states[i].tasks[t].exec.Some? ==> New(b, b.states[i].tasks[t].exec.value))
    {
      if t in b.states[i - 1].tasks { TaskStep(b, parses, i, t); }
    }
  }

  predicate Replaced(db: Tables, x: ExecId) {
    x in db.execs && db.execs[x].errorMessage == Some(REPLACED)
  }

  /** Only the closing UPDATE of a run that returned Cancelled writes the text. */
  lemma RowBecomesReplaced(s: State, e: Event, parses: Parses, x: ExecId)
    requires Inv(s, parses) && Enabled(s, e)
    ensures Replaced(Next(s, e, parses).db, x) && !Replaced(s.db, x) ==>
              e.Finish? && s.tasks[e.t].exec == Some(x) && s.tasks[e.t].pc.outcome.Cancelled?
  {
    if e.Finish? {
      assert TaskOk(s, e.t);
      assert x in s.db.execs ==> ExecOk(s.db, x);
      if !s.tasks[e.t].pc.outcome.Response? { OnlyCancelledIsReplaced(s.tasks[e.t].pc.outcome); }
    }
  }

  lemma RowStep(b: Behavior, parses: Parses, i: nat, x: ExecId)
    requires IsBehavior(b, parses) && 0 < i <= |b.events| && TasksExplained(b, i - 1)
    requires x in b.states[i].db.execs && (x in b.states[i - 1].db.execs ==> RowExplained(b, i - 1, x))
    ensures RowExplained(b, i, x)
  {
    InvAlways(b, parses, i - 1);
    assert StepAt(b, i - 1, parses);
    var s, e, s' := b.states[i - 1], b.events[i - 1], b.states[i];
    if New(b, x) && s'.db.execs[x].errorMessage == Some(REPLACED) {
      var t: TaskId;
      if x in s.db.execs && s.db.execs[x].errorMessage == Some(REPLACED) {
        t :| t in s.tasks && s.tasks[t].exec == Some(x) && Caused(b, i - 1, s.tasks[t]);
      } else {
        RowBecomesReplaced(s, e, parses, x);
        t := e.t;
        assert Explained(b, i - 1, t);
      }
      TaskChanges(s, e, parses, t);
      assert t in s'.tasks && s'.tasks[t].exec == Some(x) && Caused(b, i, s'.tasks[t]);
    }
  }

  lemma {:induction false} ExplainedAlways(b: Behavior, parses: Parses, i: nat)
    requires IsBehavior(b, parses) && i <= |b.events|
    ensures FlagsExplained(b, i) && TasksExplained(b, i)
    ensures forall x | x in b.states[i].db.execs :: RowExplained(b, i, x)
  {
    if i == 0 {
      forall x | x in b.states[0].db.execs ensures !New(b, x) { assert ExecOk(b.states[0].db, x); }
    } else {
      ExplainedAlways(b, parses, i - 1);
      FlagsStep(b, parses, i);
      TasksStepExplained(b, parses, i);
      forall x | x in b.states[i].db.execs
        ensures RowExplained(b, i, x)
      {
        RowStep(b, parses, i, x);
      }
    }
  }

  /** A row reported as "replaced by newer execution" was asked to stop: earlier in the
      run a Replace start of its job flagged it while it was running, or (only if it is
      itself a scheduled Replace run) a later scheduled start of its job or a pass of
      sync that removed or rescheduled its entry cancelled its context. */
  lemma ReplacedRowsWereAskedToStop(b: Behavior, parses: Parses, i: nat, x: ExecId)
    requires IsBehavior(b, parses) && i <= |b.events|
    requires x in b.states[i].db.execs && New(b, x) && b.states[i].db.execs[x].errorMessage == Some(REPLACED)
    ensures WasFlagged(b, i, x)
         || exists t :: && t in b.states[i].tasks && b.states[i].tasks[t].exec == Some(x)
                        && b.states[i].tasks[t].source == Tick && b.states[i].tasks[t].job.policy.Replace?
                        && b.states[i].tasks[t].ctx.Some?
                        && WasCancelled(b, i, b.states[i].db.execs[x].jobId, b.states[i].tasks[t].ctx.value)
  {
    ExplainedAlways(b, parses, i);
    InvAlways(b, parses, i);
    assert RowExplained(b, i, x);
    var t :| t in b.states[i].tasks && b.states[i].tasks[t].exec == Some(x) && Caused(b, i, b.states[i].tasks[t]);
    assert TaskOk(b.states[i], t);
  }

  /** A run launched under Allow or Forbid, or by hand, has only the flag to stop it. */
  lemma OnlyTheFlagStopsOthers(b: Behavior, parses: Parses, i: nat, t: TaskId)
    requires IsBehavior(b, parses) && i <= |b.events| && t in b.states[i].tasks
    requires b.states[i].tasks[t].source == Manual || !b.states[i].tasks[t].job.policy.Replace?
    requires InFlight(b.states[i].tasks[t].pc) && Interrupted(b.states[i], b.states[i].tasks[t])
    ensures b.states[i].tasks[t].exec.Some? && WasFlagged(b, i, b.states[i].tasks[t].exec.value)
  {
    ExplainedAlways(b, parses, i);
    InvAlways(b, parses, i);
    assert TaskOk(b.states[i], t) && Explained(b, i, t);
  }
}
