/** The two shared tables and the SQL statements both services run on them. Each
    statement is one atomic step: a function on the tables' value, and a method of the
    live database proved against it. */
module Tables {
  import opened Domain

  datatype Tables = Tables(jobs: map<JobId, JobRow>, execs: map<ExecId, ExecRow>, nextJob: nat, nextExec: nat)

  // ---- jobs ----

  function InsertJob(db: Tables, row: JobRow): Tables {
    db.(jobs := db.jobs[db.nextJob := row], nextJob := db.nextJob + 1)
  }

  /** `policy` is None for the admin endpoint, whose UPDATE leaves that column alone. */
  function UpdateJob(db: Tables, id: JobId, request: Request, cronExpr: string, timezone: string,
                     policy: Option<Policy>, now: Time): Tables
    requires id in db.jobs
  {
    var row := db.jobs[id];
    db.(jobs := db.jobs[id := row.(request := request, cronExpr := cronExpr, timezone := timezone,
                                   policy := if policy.Some? then policy.value else row.policy, updatedAt := now)])
  }

  function SetJobStatus(db: Tables, id: JobId, status: JobStatus, now: Time): Tables
    requires id in db.jobs
  {
    db.(jobs := db.jobs[id := db.jobs[id].(status := status, updatedAt := now)])
  }

  /** Jobs deleted by an endpoint, or with their user: their executions go too. */
  function DeleteJobs(db: Tables, ids: set<JobId>): Tables {
    db.(jobs := map id | id in db.jobs && id !in ids :: db.jobs[id],
        execs := map x | x in db.execs && db.execs[x].jobId !in ids :: db.execs[x])
  }

  function StampLastRun(db: Tables, id: JobId, at: Time): Tables {
    if id in db.jobs then db.(jobs := db.jobs[id := db.jobs[id].(lastRunAt := Some(at))]) else db
  }

  // ---- executions ----

  function FreshRow(id: JobId, source: Origin, startedAt: Time): ExecRow {
    ExecRow(id, Running, source, startedAt, None, None, None, None, None, false)
  }

  function InsertExec(db: Tables, id: JobId, source: Origin, startedAt: Time): Tables {
    db.(execs := db.execs[db.nextExec := FreshRow(id, source, startedAt)], nextExec := db.nextExec + 1)
  }

  function RunningRows(db: Tables, id: JobId): set<ExecId> {
    set x | x in db.execs && db.execs[x].jobId == id && db.execs[x].status == Running
  }

  /** Asks every running execution of the job to stop, whoever started it. */
  function FlagRunning(db: Tables, id: JobId): Tables {
    db.(execs := map x | x in db.execs ::
      if db.execs[x].jobId == id && db.execs[x].status == Running
      then db.execs[x].(cancelRequested := true)
      else db.execs[x])
  }

  /** The closing UPDATE by id: whatever the row's status is, and nothing if it is gone. */
  function FinishExec(db: Tables, x: ExecId, o: Outcome, at: Time, durationMs: int): Tables {
    if x in db.execs
    then db.(execs := db.execs[x := Completed(db.execs[x], o, at, durationMs)])
    else db
  }

  // ---- what holds of the tables at every moment ----

  ghost predicate JobOk(db: Tables, id: JobId)
    requires id in db.jobs
  {
    var row := db.jobs[id];
    && id < db.nextJob
    && 0 < row.updatedAt
    && (row.lastRunAt.Some? ==> exists x :: RespondedAt(db, id, x, row.lastRunAt.value))
  }

  ghost predicate RespondedAt(db: Tables, id: JobId, x: ExecId, at: Time) {
    && x in db.execs && db.execs[x].jobId == id
    && db.execs[x].responseStatus.Some? && db.execs[x].completedAt == Some(at)
  }

  ghost predicate ExecOk(db: Tables, x: ExecId)
    requires x in db.execs
  {
    x < db.nextExec && RowOk(db.execs[x]) && db.execs[x].jobId in db.jobs
  }

  ghost predicate TablesOk(db: Tables) {
    && (forall id | id in db.jobs :: JobOk(db, id))
    && (forall x | x in db.execs :: ExecOk(db, x))
  }

  /** A row outside 'running' is final: it can only be deleted with its job, and then
      its id never returns. */
  ghost predicate RowsEvolve(before: Tables, after: Tables) {
    && before.nextExec <= after.nextExec
    && (forall x | x in after.execs && x < before.nextExec ::
          x in before.execs && RowEvolves(before.execs[x], after.execs[x]))
  }

  ghost predicate RowEvolves(before: ExecRow, after: ExecRow) {
    && after.jobId == before.jobId && after.triggeredBy == before.triggeredBy && after.startedAt == before.startedAt
    && (before.status != Running ==> after == before)
    && (before.cancelRequested ==> after.cancelRequested)
    && (after.cancelRequested && !before.cancelRequested ==> before.status == Running)
  }

  // ---- every statement keeps the tables well formed, and rows only move forward ----

  lemma JobsKept(before: Tables, after: Tables)
    requires TablesOk(before)
    requires before.execs == after.execs && before.jobs.Keys <= after.jobs.Keys
    requires forall id | id in after.jobs && !(id in before.jobs && after.jobs[id] == before.jobs[id]) ::
               && 0 < after.jobs[id].updatedAt
               && after.jobs[id].lastRunAt == if id in before.jobs then before.jobs[id].lastRunAt else None
    requires forall id | id in after.jobs :: id < after.nextJob
    requires after.nextExec == before.nextExec
    ensures TablesOk(after) && RowsEvolve(before, after)
  {
    forall id | id in after.jobs
      ensures JobOk(after, id)
    {
      if id in before.jobs {
        assert JobOk(before, id);
        if after.jobs[id].lastRunAt.Some? {
          var at := after.jobs[id].lastRunAt.value;
          var x :| RespondedAt(before, id, x, at);
          assert RespondedAt(after, id, x, at);
        }
      }
    }
    forall x | x in after.execs ensures ExecOk(after, x) { assert ExecOk(before, x); }
  }

  lemma InsertJobKeeps(db: Tables, row: JobRow)
    requires TablesOk(db) && 0 < row.updatedAt && row.lastRunAt == None
    ensures TablesOk(InsertJob(db, row)) && RowsEvolve(db, InsertJob(db, row))
  {
    forall id | id in db.jobs ensures id < db.nextJob { assert JobOk(db, id); }
    JobsKept(db, InsertJob(db, row));
  }

  lemma UpdateJobKeeps(db: Tables, id: JobId, request: Request, cronExpr: string, timezone: string,
                       policy: Option<Policy>, now: Time)
    requires TablesOk(db) && id in db.jobs && 0 < now
    ensures TablesOk(UpdateJob(db, id, request, cronExpr, timezone, policy, now))
    ensures RowsEvolve(db, UpdateJob(db, id, request, cronExpr, timezone, policy, now))
  {
    forall i | i in db.jobs ensures i < db.nextJob { assert JobOk(db, i); }
    JobsKept(db, UpdateJob(db, id, request, cronExpr, timezone, policy, now));
  }

  lemma SetJobStatusKeeps(db: Tables, id: JobId, status: JobStatus, now: Time)
    requires TablesOk(db) && id in db.jobs && 0 < now
    ensures TablesOk(SetJobStatus(db, id, status, now)) && RowsEvolve(db, SetJobStatus(db, id, status, now))
  {
    forall i | i in db.jobs ensures i < db.nextJob { assert JobOk(db, i); }
    JobsKept(db, SetJobStatus(db, id, status, now));
  }

  lemma DeleteJobsKeeps(db: Tables, ids: set<JobId>)
    requires TablesOk(db)
    ensures TablesOk(DeleteJobs(db, ids)) && RowsEvolve(db, DeleteJobs(db, ids))
  {
    var after := DeleteJobs(db, ids);
    forall id | id in after.jobs
      ensures JobOk(after, id)
    {
      assert JobOk(db, id);
      if after.jobs[id].lastRunAt.Some? {
        var x :| RespondedAt(db, id, x, after.jobs[id].lastRunAt.value);
        assert RespondedAt(after, id, x, after.jobs[id].lastRunAt.value);
      }
    }
    forall x | x in after.execs ensures ExecOk(after, x) { assert ExecOk(db, x); }
  }

  /** Statements on executions: no row goes, no job changes, responses stay. */
  lemma ExecsKept(before: Tables, after: Tables)
    requires TablesOk(before)
    requires before.jobs == after.jobs && before.nextJob == after.nextJob && before.execs.Keys <= after.execs.Keys
    requires forall x | x in after.execs :: ExecOk(after, x)
    requires RowsEvolve(before, after)
    ensures TablesOk(after)
  {
    forall id | id in after.jobs
      ensures JobOk(after, id)
    {
      assert JobOk(before, id);
      if after.jobs[id].lastRunAt.Some? {
        var x :| RespondedAt(before, id, x, after.jobs[id].lastRunAt.value);
        assert ExecOk(before, x) && RowEvolves(before.execs[x], after.execs[x]);
        assert RespondedAt(after, id, x, after.jobs[id].lastRunAt.value);
      }
    }
  }

  lemma InsertExecKeeps(db: Tables, id: JobId, source: Origin, startedAt: Time)
    requires TablesOk(db) && id in db.jobs
    ensures TablesOk(InsertExec(db, id, source, startedAt)) && RowsEvolve(db, InsertExec(db, id, source, startedAt))
  {
    var after := InsertExec(db, id, source, startedAt);
    forall x | x in after.execs ensures ExecOk(after, x) { if x in db.execs { assert ExecOk(db, x); } }
    ExecsKept(db, after);
  }

  lemma FlagRunningKeeps(db: Tables, id: JobId)
    requires TablesOk(db)
    ensures TablesOk(FlagRunning(db, id)) && RowsEvolve(db, FlagRunning(db, id))
  {
    var after := FlagRunning(db, id);
    forall x | x in after.execs ensures ExecOk(after, x) { assert ExecOk(db, x); }
    ExecsKept(db, after);
  }

  lemma FinishExecKeeps(db: Tables, x: ExecId, o: Outcome, at: Time, durationMs: int)
    requires TablesOk(db) && (x in db.execs ==> db.execs[x].status == Running)
    ensures TablesOk(FinishExec(db, x, o, at, durationMs)) && RowsEvolve(db, FinishExec(db, x, o, at, durationMs))
  {
    var after := FinishExec(db, x, o, at, durationMs);
    forall y | y in after.execs ensures ExecOk(after, y) { assert ExecOk(db, y); }
    ExecsKept(db, after);
  }

  lemma StampLastRunKeeps(db: Tables, id: JobId, at: Time)
    requires TablesOk(db) && (id in db.jobs ==> exists x :: RespondedAt(db, id, x, at))
    ensures TablesOk(StampLastRun(db, id, at)) && RowsEvolve(db, StampLastRun(db, id, at))
  {
    var after := StampLastRun(db, id, at);
    forall i | i in after.jobs
      ensures JobOk(after, i)
    {
      assert JobOk(db, i);
      if after.jobs[i].lastRunAt.Some? {
        var x :| RespondedAt(db, i, x, after.jobs[i].lastRunAt.value);
        assert RespondedAt(after, i, x, after.jobs[i].lastRunAt.value);
      }
    }
    forall x | x in after.execs ensures ExecOk(after, x) { assert ExecOk(db, x); }
  }

  lemma RowsEvolveCompose(a: Tables, b: Tables, c: Tables)
    requires RowsEvolve(a, b) && RowsEvolve(b, c)
    ensures RowsEvolve(a, c)
  {
    forall x | x in c.execs && x < a.nextExec
      ensures x in a.execs && RowEvolves(a.execs[x], c.execs[x])
    {
      assert RowEvolves(b.execs[x], c.execs[x]) && RowEvolves(a.execs[x], b.execs[x]);
    }
  }

  /** The HTTP status a handler answers with. */
  datatype Reply = Ok | NotFound | Conflict

  /** The live database and the statements sent to it. */
  class Database {
    var jobs: map<JobId, JobRow>
    var execs: map<ExecId, ExecRow>
    var nextJob: nat
    var nextExec: nat

    function View(): Tables
      reads this
    {
      Tables(jobs, execs, nextJob, nextExec)
    }

    constructor ()
      ensures View() == Tables(map[], map[], 0, 0)
    {
      jobs, execs, nextJob, nextExec := map[], map[], 0, 0;
    }

    method CreateJob(row: JobRow) returns (id: JobId)
      modifies this
      ensures id == old(nextJob) && View() == InsertJob(old(View()), row)
      ensures TablesOk(old(View())) ==> id !in old(jobs)
      ensures id in jobs && jobs[id] == row && execs == old(execs)
      ensures forall i | i in old(jobs) && i != id :: i in jobs && jobs[i] == old(jobs)[i]
    {
      id := nextJob;
      assert id in jobs && TablesOk(View()) ==> JobOk(View(), id);
      jobs := jobs[id := row];
      nextJob := id + 1;
    }

    /** `user` is None on the admin endpoint, which does not match on the owner. */
    method EditJob(user: Option<UserId>, id: JobId, request: Request, cronExpr: string, timezone: string,
                   policy: Option<Policy>, now: Time) returns (r: Reply)
      modifies this
      ensures r == if id in old(jobs) && (user == None || user == Some(old(jobs)[id].owner)) then Ok else NotFound
      ensures View() == if r == Ok then UpdateJob(old(View()), id, request, cronExpr, timezone, policy, now) else old(View())
      ensures r == Ok ==>
                && jobs.Keys == old(jobs).Keys && execs == old(execs)
                && jobs[id].request == request && jobs[id].cronExpr == cronExpr && jobs[id].timezone == timezone
                && jobs[id].policy == (if policy.Some? then policy.value else old(jobs)[id].policy) && jobs[id].updatedAt == now
                && jobs[id].owner == old(jobs)[id].owner && jobs[id].status == old(jobs)[id].status
                && jobs[id].lastRunAt == old(jobs)[id].lastRunAt
                && forall i | i in jobs && i != id :: jobs[i] == old(jobs)[i]
    {
      if id !in jobs || (user.Some? && jobs[id].owner != user.value) {
        return NotFound;
      }
      var row := jobs[id].(request := request, cronExpr := cronExpr, timezone := timezone, updatedAt := now);
      if policy.Some? {
        row := row.(policy := policy.value);
      }
      jobs := jobs[id := row];
      return Ok;
    }

    /** Pause (Active to Paused) and resume (Paused to Active). */
    method ChangeStatus(user: Option<UserId>, id: JobId, status: JobStatus, required: JobStatus, now: Time) returns (r: Reply)
      modifies this
      ensures r == if id in old(jobs) && (user == None || user == Some(old(jobs)[id].owner)) && old(jobs)[id].status == required
                   then Ok else NotFound
      ensures View() == if r == Ok then SetJobStatus(old(View()), id, status, now) else old(View())
      ensures r == Ok ==>
                && jobs.Keys == old(jobs).Keys && execs == old(execs)
                && jobs[id].status == status && jobs[id].updatedAt == now
                && jobs[id].owner == old(jobs)[id].owner && jobs[id].request == old(jobs)[id].request
                && jobs[id].policy == old(jobs)[id].policy && jobs[id].cronExpr == old(jobs)[id].cronExpr
                && jobs[id].timezone == old(jobs)[id].timezone && jobs[id].lastRunAt == old(jobs)[id].lastRunAt
                && forall i | i in jobs && i != id :: jobs[i] == old(jobs)[i]
    {
      if id !in jobs || (user.Some? && jobs[id].owner != user.value) || jobs[id].status != required {
        return NotFound;
      }
      jobs := jobs[id := jobs[id].(status := status, updatedAt := now)];
      return Ok;
    }

    method DeleteJob(user: Option<UserId>, id: JobId) returns (r: Reply)
      modifies this
      ensures r == if id in old(jobs) && (user == None || user == Some(old(jobs)[id].owner)) then Ok else NotFound
      ensures View() == if r == Ok then DeleteJobs(old(View()), {id}) else old(View())
      ensures r == Ok ==>
                && jobs == old(jobs) - {id}
                && (forall x :: x in execs <==> x in old(execs) && old(execs)[x].jobId != id)
                && (forall x | x in execs :: execs[x] == old(execs)[x])
    {
      if id !in jobs || (user.Some? && jobs[id].owner != user.value) {
        return NotFound;
      }
      jobs := jobs - {id};
      execs := map x | x in execs && execs[x].jobId != id :: execs[x];
      return Ok;
    }

    method HasRunning(id: JobId) returns (found: bool)
      ensures found <==> RunningRows(View(), id) != {}
      ensures found <==> exists x :: x in execs && execs[x].jobId == id && execs[x].status == Running
    {
      var todo := execs.Keys;
      found := false;
      while !found && todo != {}
        invariant todo <= execs.Keys
        invariant found <==> exists x :: x in execs.Keys - todo && x in RunningRows(View(), id)
        decreases todo
      {
        var x :| x in todo;
        todo := todo - {x};
        found := execs[x].jobId == id && execs[x].status == Running;
        assert x in execs.Keys - todo;
      }
      assert forall x :: x in RunningRows(View(), id) <==> x in execs && execs[x].jobId == id && execs[x].status == Running;
    }

    /** The scan the UPDATE makes, row by row in any order. */
    method RequestCancel(id: JobId)
      modifies this`execs
      ensures View() == FlagRunning(old(View()), id)
      ensures execs.Keys == old(execs).Keys
      ensures forall x | x in execs && execs[x].jobId == id && execs[x].status == Running ::
                execs[x] == old(execs)[x].(cancelRequested := true)
      ensures forall x | x in execs && !(execs[x].jobId == id && execs[x].status == Running) :: execs[x] == old(execs)[x]
    {
      var todo := execs.Keys;
      ghost var goal := FlagRunning(View(), id);
      while todo != {}
        invariant todo <= execs.Keys == old(execs).Keys
        invariant forall x | x in execs :: execs[x] == if x in todo then old(execs)[x] else goal.execs[x]
        decreases todo
      {
        var x :| x in todo;
        if execs[x].jobId == id && execs[x].status == Running {
          execs := execs[x := execs[x].(cancelRequested := true)];
        }
        todo := todo - {x};
      }
      assert execs == goal.execs;
    }
  }

  ghost predicate Owned(db: Tables, user: Option<UserId>, id: JobId) {
    id in db.jobs && (user.Some? ==> db.jobs[id].owner == user.value)
  }
}
