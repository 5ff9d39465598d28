/** What the invariant says over whole runs: rows and runs, the life of a row, cron
    registrations, and the Replace contexts. */
module Safety {
  import opened Domain
  import opened Tables
  import opened Scheduler
  import opened Protocol
  import opened Invariants

  /** Every running row has exactly one run in flight, and every run in flight has its
      row running unless the job was deleted under it. */
  lemma RowsMatchRuns(b: Behavior, parses: Parses, i: nat)
    requires IsBehavior(b, parses) && i < |b.states|
    ensures forall x | x in b.states[i].db.execs && b.states[i].db.execs[x].status == Running ::
              exists t :: Runs(b.states[i], t, x) && forall u | Runs(b.states[i], u, x) :: u == t
    ensures forall t | t in b.states[i].tasks && InFlight(b.states[i].tasks[t].pc) ::
              var task := b.states[i].tasks[t];
              && task.exec.Some?
              && (if task.exec.value in b.states[i].db.execs
                  then b.states[i].db.execs[task.exec.value].status == Running
                       && b.states[i].db.execs[task.exec.value].jobId == task.job.id
                  else task.job.id !in b.states[i].db.jobs)
  {
    var s := b.states[i];
    InvAlways(b, parses, i);
    forall t | t in s.tasks ensures TaskOk(s, t) {}
    forall x | x in s.db.execs && s.db.execs[x].status == Running
      ensures exists t :: Runs(s, t, x) && forall u | Runs(s, u, x) :: u == t
    {
      var t :| Runs(s, t, x);
      forall u | Runs(s, u, x) ensures u == t { assert Unshared(s, t, u); }
    }
  }

  /** A row leaves 'running' at most once and is final from then on; the cancel flag is
      never taken back and is first set on a running row; a deleted row never returns. */
  lemma {:induction false} RowsOnlyMoveForward(b: Behavior, parses: Parses, i: nat, j: nat)
    requires IsBehavior(b, parses) && i <= j < |b.states|
    ensures RowsEvolve(b.states[i].db, b.states[j].db)
    decreases j
  {
    if i < j {
      RowsOnlyMoveForward(b, parses, i, j - 1);
      assert StepAt(b, j - 1, parses);
      InvAlways(b, parses, j - 1);
      TablesStep(b.states[j - 1], b.events[j - 1], parses);
      RowsEvolveCompose(b.states[i].db, b.states[j - 1].db, b.states[j].db);
    }
  }

  /** Row by row: a running row carries no completion data; a finished one has an error
      or a response but not both, and succeeded exactly when the response code is below
      400; a job's last_run_at is the completion time of one of its responded rows. */
  lemma RowsWellFormed(b: Behavior, parses: Parses, i: nat)
    requires IsBehavior(b, parses) && i < |b.states|
    ensures forall x | x in b.states[i].db.execs ::
              var row := b.states[i].db.execs[x];
              && (row.status == Running ==> row.completedAt == None && row.durationMs == None && row.responseStatus == None
                                            && row.responseBody == None && row.errorMessage == None)
              && (row.status != Running ==> row.completedAt.Some? && row.durationMs.Some?
                                            && (row.responseStatus.Some? <==> row.responseBody.Some?)
                                            && (row.errorMessage.Some? <==> row.responseStatus == None))
              && (row.status == Success <==> row.responseStatus.Some? && row.responseStatus.value < 400)
    ensures forall id | id in b.states[i].db.jobs && b.states[i].db.jobs[id].lastRunAt.Some? ::
              exists x :: x in b.states[i].db.execs && b.states[i].db.execs[x].jobId == id
                           && b.states[i].db.execs[x].responseStatus.Some?
                           && b.states[i].db.execs[x].completedAt == b.states[i].db.jobs[id].lastRunAt
  {
    var db := b.states[i].db;
    InvAlways(b, parses, i);
    forall x | x in db.execs ensures RowOk(db.execs[x]) { assert ExecOk(db, x); }
    forall id | id in db.jobs && db.jobs[id].lastRunAt.Some?
      ensures exists x :: x in db.execs && db.execs[x].jobId == id && db.execs[x].responseStatus.Some?
                          && db.execs[x].completedAt == db.jobs[id].lastRunAt
    {
      assert JobOk(db, id);
      var x :| RespondedAt(db, id, x, db.jobs[id].lastRunAt.value);
    }
  }

  /** No registration is leaked or doubled, whatever passes and late callbacks
      interleave: each live cron ID is the one its job's entry holds and no other entry's,
      every other entry is a ghost with a zero ID and a zero stamp. */
  lemma RegistrationsMatchEntries(b: Behavior, parses: Parses, i: nat)
    requires IsBehavior(b, parses) && i < |b.states|
    ensures forall c | c in b.states[i].worker.live ::
              exists id :: id in b.states[i].worker.entries && b.states[i].worker.entries[id].cronId == c
                           && forall other | other in b.states[i].worker.entries && other != id ::
                                b.states[i].worker.entries[other].cronId != c
    ensures forall id | id in b.states[i].worker.entries ::
              || b.states[i].worker.entries[id].cronId in b.states[i].worker.live
              || (b.states[i].worker.entries[id].cronId == 0 && b.states[i].worker.entries[id].scheduledAt == 0)
  {
    var w := b.states[i].worker;
    InvAlways(b, parses, i);
    forall id | id in w.entries ensures EntryOk(w, id) {}
    forall c | c in w.live
      ensures exists id :: id in w.entries && w.entries[id].cronId == c
                           && forall other | other in w.entries && other != id :: w.entries[other].cronId != c
    {
      assert LiveOk(w, c, parses);
      assert w.live[c].job.id in w.entries;
    }
  }

  /** Every context the Replace branch made is cancelled or is the one its job's entry
      stores, so at most one scheduled Replace start of a job has a live context. */
  lemma OneLiveReplaceContext(b: Behavior, parses: Parses, i: nat, t: TaskId, u: TaskId)
    requires IsBehavior(b, parses) && i < |b.states|
    requires t in b.states[i].tasks && u in b.states[i].tasks
    requires b.states[i].tasks[t].ctx.Some? && b.states[i].tasks[u].ctx.Some?
    requires b.states[i].tasks[t].job.id == b.states[i].tasks[u].job.id
    ensures Held(b.states[i].worker, b.states[i].tasks[t].job.id, b.states[i].tasks[t].ctx.value)
    ensures b.states[i].tasks[t].ctx.value in b.states[i].worker.cancelled
         || b.states[i].tasks[u].ctx.value in b.states[i].worker.cancelled
         || t == u
  {
    InvAlways(b, parses, i);
    assert TaskOk(b.states[i], t) && TaskOk(b.states[i], u) && Unshared(b.states[i], t, u);
  }
}
