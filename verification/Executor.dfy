/** executor.run, which both services share: how a run ends once it is asked to stop,
    and the function itself, step by step among the steps of everybody else. */
module Executor {
  import opened Domain
  import opened Tables
  import opened Scheduler
  import opened Protocol
  import opened Invariants

  // ---- a flagged run comes to its end ----

  /** The run of task `t` is in flight and its row carries the cancel flag. */
  ghost predicate Asked(s: State, t: TaskId, x: ExecId) {
    && At(s, t) && s.tasks[t].exec == Some(x) && InFlight(s.tasks[t].pc)
    && x in s.db.execs && s.db.execs[x].cancelRequested
  }

  /** The row has left 'running', or went with its job. */
  ghost predicate Over(s: State, x: ExecId) {
    x in s.db.execs ==> s.db.execs[x].status != Running
  }

  /** How many more steps of its own a flagged run can take: the poll that reads the
      flag (or sees the context done), the return of doRequest, the closing UPDATE. */
  ghost function StepsLeft(task: Task): nat {
    (if task.watching then 1 else 0) + (if task.pc.Requesting? then 2 else if task.pc.Finishing? then 1 else 0)
  }

  /** A step of task `t` itself, other than a poll whose read fails. */
  predicate OwnStep(e: Event, t: TaskId) {
    Actor(e) == Some(t) && (e.Poll? ==> e.readOk)
  }

  ghost function OwnSteps(b: Behavior, t: TaskId, i: nat, j: nat): nat
    requires i <= j <= |b.events|
  {
    if i == j then 0 else OwnSteps(b, t, i, j - 1) + if OwnStep(b.events[j - 1], t) then 1 else 0
  }

  /** A flagged run is never stuck: one of its own steps can always be taken. */
  lemma AskedCanStep(s: State, parses: Parses, t: TaskId, x: ExecId) returns (e: Event)
    requires Inv(s, parses) && Asked(s, t, x)
    ensures Enabled(s, e) && OwnStep(e, t)
  {
    assert TaskOk(s, t);
    if s.tasks[t].pc.Finishing? {
      e := Finish(t);
    } else if s.tasks[t].watching {
      e := Poll(t, true);
    } else {
      e := Return(t, Cancelled, 0);
    }
  }

  lemma AskedOwnStep(s: State, e: Event, parses: Parses, t: TaskId, x: ExecId)
    requires Inv(s, parses) && Enabled(s, e) && Asked(s, t, x) && Actor(e) == Some(t)
    ensures Over(Next(s, e, parses), x)
         || (&& Asked(Next(s, e, parses), t, x)
             && StepsLeft(Next(s, e, parses).tasks[t]) + (if OwnStep(e, t) then 1 else 0) <= StepsLeft(s.tasks[t]))
  {
    assert TaskOk(s, t);
  }

  lemma AskedOtherStep(s: State, e: Event, parses: Parses, t: TaskId, x: ExecId)
    requires Inv(s, parses) && Enabled(s, e) && Asked(s, t, x) && Actor(e) != Some(t)
    ensures Over(Next(s, e, parses), x) || Asked(Next(s, e, parses), t, x)
    ensures At(Next(s, e, parses), t) && Next(s, e, parses).tasks[t] == s.tasks[t]
  {
    TablesStep(s, e, parses);
    OthersLeaveTask(s, e, parses, t);
    assert ExecOk(s.db, x);
    assert x in Next(s, e, parses).db.execs ==> RowEvolves(s.db.execs[x], Next(s, e, parses).db.execs[x]);
  }

  lemma OverStep(s: State, e: Event, parses: Parses, x: ExecId)
    requires Inv(s, parses) && Enabled(s, e) && Over(s, x) && x < s.db.nextExec
    ensures Over(Next(s, e, parses), x)
  {
    TablesStep(s, e, parses);
  }

  lemma {:induction false} AskedUntilOver(b: Behavior, parses: Parses, t: TaskId, x: ExecId, i: nat, j: nat)
    requires IsBehavior(b, parses) && i <= j <= |b.events| && Asked(b.states[i], t, x)
    ensures x < b.states[j].db.nextExec
    ensures Over(b.states[j], x)
         || (Asked(b.states[j], t, x)
             && StepsLeft(b.states[j].tasks[t]) + OwnSteps(b, t, i, j) <= StepsLeft(b.states[i].tasks[t]))
    decreases j
  {
    if i == j {
      InvAlways(b, parses, i);
      assert ExecOk(b.states[i].db, x);
    } else {
      AskedUntilOver(b, parses, t, x, i, j - 1);
      InvAlways(b, parses, j - 1);
      assert StepAt(b, j - 1, parses);
      var s, e := b.states[j - 1], b.events[j - 1];
      TablesStep(s, e, parses);
      if Over(s, x) {
        OverStep(s, e, parses, x);
      } else if Actor(e) == Some(t) {
        AskedOwnStep(s, e, parses, t, x);
      } else {
        AskedOtherStep(s, e, parses, t, x);
      }
    }
  }

  /** Cancellation terminates: whatever else happens, once a running row is flagged its
      run has at most three steps of its own left before the row is finished or gone. */
  lemma CancellationTerminates(b: Behavior, parses: Parses, t: TaskId, x: ExecId, i: nat, j: nat)
    requires IsBehavior(b, parses) && i <= j <= |b.events| && Asked(b.states[i], t, x)
    requires OwnSteps(b, t, i, j) >= 3
    ensures Over(b.states[j], x)
  {
    AskedUntilOver(b, parses, t, x, i, j);
  }

  /** Once run has returned its watcher can stop at once, nothing starts it again, and
      the deferred cancel cannot be undone. */
  lemma WatcherStops(s: State, e: Event, parses: Parses, t: TaskId)
    requires Inv(s, parses) && Enabled(s, e) && At(s, t) && s.tasks[t].pc.Returned?
    ensures s.tasks[t].watching ==> Enabled(s, StopWatching(t)) && !Next(s, StopWatching(t), parses).tasks[t].watching
    ensures At(Next(s, e, parses), t) && Next(s, e, parses).tasks[t].pc.Returned?
    ensures Next(s, e, parses).tasks[t].watching ==> s.tasks[t].watching
  {
    assert TaskOk(s, t);
  }

  // ---- run, among the others ----

  /** What run leaves in its row. */
  ghost predicate Recorded(row: ExecRow, startedAt: Time, o: Outcome, at: Time) {
    && row.startedAt == startedAt && row.completedAt == Some(at) && row.durationMs == Some(at - startedAt)
    && match o
       case Response(code, body) =>
         && row.responseStatus == Some(code) && row.responseBody == Some(body) && row.errorMessage == None
         && row.status == if code < 400 then Success else Failure
       case BuildError(text) => Failed(row, "build request: " + text)
       case CallError(text) => Failed(row, "request failed: " + text)
       case Cancelled => Failed(row, "replaced by newer execution")
  }

  ghost predicate Failed(row: ExecRow, text: string) {
    row.status == Failure && row.errorMessage == Some(text) && row.responseStatus == None && row.responseBody == None
  }

  predicate SameRun(before: Task, after: Task) {
    after.exec == before.exec && after.job == before.job && after.source == before.source && after.startedAt == before.startedAt
  }

  /** The run's row is there and carries the cancel flag. */
  predicate FlagRead(s: State, t: TaskId) {
    At(s, t) && s.tasks[t].exec.Some? && s.tasks[t].exec.value in s.db.execs && s.db.execs[s.tasks[t].exec.value].cancelRequested
  }

  ghost predicate RecordedIfThere(s: State, t: TaskId, o: Outcome, at: Time)
    requires At(s, t) && s.tasks[t].exec.Some?
  {
    var x := s.tasks[t].exec.value;
    x < s.db.nextExec && if x in s.db.execs then Recorded(s.db.execs[x], s.tasks[t].startedAt, o, at) else s.tasks[t].job.id !in s.db.jobs
  }

  /** If the row is there, it is that job's, of that origin, over that time. */
  predicate RowIs(db: Tables, x: ExecId, id: JobId, source: Origin, startedAt: Time, completedAt: Time) {
    x in db.execs ==>
      && db.execs[x].jobId == id && db.execs[x].triggeredBy == source && db.execs[x].startedAt == startedAt
      && db.execs[x].completedAt == Some(completedAt) && db.execs[x].durationMs == Some(completedAt - startedAt)
  }

  predicate LastRunIs(db: Tables, id: JobId, at: Time) {
    id in db.jobs ==> db.jobs[id].lastRunAt == Some(at)
  }

  class System {
    const parses: Parses
    var st: State

    constructor (parses: Parses, st: State)
      requires Inv(st, parses)
      ensures this.parses == parses && this.st == st
    {
      this.parses := parses;
      this.st := st;
    }

    method Do(e: Event)
      requires Inv(st, parses) && Enabled(st, e)
      modifies this
      ensures st == Next(old(st), e, parses) && Inv(st, parses)
    {
      InvStep(st, e, parses);
      st := Next(st, e, parses);
    }

    /** Everybody else takes whatever steps of `plan` are possible when their turn comes. */
    method Others(t: TaskId, plan: seq<Event>)
      requires Inv(st, parses) && At(st, t)
      modifies this
      ensures Inv(st, parses) && At(st, t) && st.tasks[t] == old(st).tasks[t]
      ensures RowsEvolve(old(st).db, st.db)
    {
      for k := 0 to |plan|
        invariant Inv(st, parses) && At(st, t) && st.tasks[t] == old(st).tasks[t]
        invariant RowsEvolve(old(st).db, st.db)
      {
        if Actor(plan[k]) != Some(t) && Enabled(st, plan[k]) {
          ghost var before := st;
          TablesStep(st, plan[k], parses);
          OthersLeaveTask(st, plan[k], parses, t);
          Do(plan[k]);
          RowsEvolveCompose(old(st).db, before.db, st.db);
        }
      }
    }

    /** The cron callback made by makeRunner. Other steps may come between its firing and
        its turn (sync may have dropped its entry), and inside its locked section (but
        never another holder of the mutex). It has not started when Forbid refuses it or
        while the mutex is taken; a failed read (`readOk` false) refuses nothing. */
    method Callback(t: TaskId, cron: CronId, late: seq<Event>, readOk: bool, inside: seq<Event>) returns (started: bool)
      requires Inv(st, parses) && !At(st, t) && cron in st.worker.live
      modifies this
      ensures Inv(st, parses) && At(st, t) && st.tasks[t].job == old(st).worker.live[cron].job && st.tasks[t].source == Origin.Tick
      ensures started <==> st.tasks[t].pc.Spawned?
      ensures !started ==> if st.tasks[t].pc.Refused? then RunningRows(st.db, st.tasks[t].job.id) != {} else st.mu.Some?
      ensures started && readOk && st.tasks[t].job.policy.Forbid? ==> RunningRows(st.db, st.tasks[t].job.id) == {}
      ensures started && st.tasks[t].job.policy.Replace? ==>
                && st.tasks[t].ctx.Some? && st.tasks[t].ctx.value !in st.worker.cancelled
                && Lookup(st.worker.entries, st.tasks[t].job.id).cancelFn == st.tasks[t].ctx
    {
      Do(Fire(t, cron));
      Others(t, late);
      match st.tasks[t].job.policy {
        case Forbid =>
          Do(Check(t, readOk));
        case Replace =>
          if st.mu.Some? {
            return false;
          }
          Do(Lock(t));
          Do(Flag(t));
          Others(t, inside);
          Do(Store(t));
        case Other(_) =>
          Do(Launch(t));
      }
      started := st.tasks[t].pc.Spawned?;
    }

    /** POST /jobs/{id}/trigger; `user` is None for its admin form, which neither matches
        on the owner nor knows the policy. */
    method TriggerJob(t: TaskId, user: Option<UserId>, id: JobId, between: seq<Event>, readOk: bool) returns (r: Reply)
      requires Inv(st, parses) && !At(st, t)
      modifies this
      ensures Inv(st, parses)
      ensures r == NotFound <==> !(id in old(st).db.jobs && (user == None || user == Some(old(st).db.jobs[id].owner)))
      ensures r == NotFound ==> st == old(st)
      ensures r == Conflict ==> user.Some? && old(st).db.jobs[id].policy.Forbid? && RunningRows(st.db, id) != {}
      ensures r == Ok ==> At(st, t) && st.tasks[t].pc.Spawned? && st.tasks[t].ctx == None && st.tasks[t].source == Manual
      ensures r == Ok ==> st.tasks[t].job.id == id && st.tasks[t].job.request == old(st).db.jobs[id].request
      ensures r == Ok && user.Some? ==> st.tasks[t].job.policy == old(st).db.jobs[id].policy
      ensures r == Ok && user.Some? && old(st).db.jobs[id].policy.Forbid? && readOk ==> RunningRows(st.db, id) == {}
      ensures r == Ok && user.Some? && old(st).db.jobs[id].policy.Replace? ==>
                forall x | x in RunningRows(st.db, id) :: st.db.execs[x].cancelRequested
    {
      if id !in st.db.jobs || (user.Some? && st.db.jobs[id].owner != user.value) {
        return NotFound;
      }
      Do(Trigger(t, id, user == None));
      Others(t, between);
      match st.tasks[t].job.policy {
        case Forbid =>
          Do(Check(t, readOk));
          if st.tasks[t].pc.Refused? {
            return Conflict;
          }
        case Replace =>
          FlagAsks(st.db, id);
          Do(Flag(t));
        case Other(_) =>
          Do(Launch(t));
      }
      return Ok;
    }

    /** One tick of the watcher, after whatever the others did since the last: stop if the
        request context is done, else read the flag. */
    method Tick(t: TaskId, others: seq<Event>, readOk: bool)
      requires Inv(st, parses) && At(st, t) && st.tasks[t].pc.Requesting? && st.tasks[t].watching
      modifies this
      ensures Inv(st, parses) && At(st, t)
      ensures st.tasks[t] == old(st).tasks[t].(cancelReq := st.tasks[t].cancelReq, watching := st.tasks[t].watching)
      ensures readOk && FlagRead(st, t) ==> !st.tasks[t].watching
    {
      Others(t, others);
      if Interrupted(st, st.tasks[t]) {
        Do(StopWatching(t));
      } else {
        Do(Poll(t, readOk));
      }
    }

    /** The watcher: every two seconds poll the flag, until it is read as set or the
        request context is done; `rounds[k]` is what others do before tick `k` and whether
        its read succeeds. It is still watching only if the last read found no flag. */
    method Watch(t: TaskId, rounds: seq<(seq<Event>, bool)>)
      requires Inv(st, parses) && At(st, t) && st.tasks[t].pc.Requesting?
      modifies this
      ensures Inv(st, parses) && At(st, t) && st.tasks[t].pc.Requesting?
      ensures SameRun(old(st).tasks[t], st.tasks[t])
      ensures rounds != [] && rounds[|rounds| - 1].1 && FlagRead(st, t) ==> !st.tasks[t].watching
    {
      var k := 0;
      while k < |rounds| && st.tasks[t].watching
        invariant k <= |rounds|
        invariant Inv(st, parses) && At(st, t) && st.tasks[t].pc.Requesting?
        invariant SameRun(old(st).tasks[t], st.tasks[t])
        invariant k > 0 && rounds[k - 1].1 && FlagRead(st, t) ==> !st.tasks[t].watching
        decreases |rounds| - k
      {
        Tick(t, rounds[k].0, rounds[k].1);
        k := k + 1;
      }
    }

    /** The end of run: the closing UPDATE and, after a response, last_run_at. */
    method Record(t: TaskId, last: seq<Event>)
      requires Inv(st, parses) && At(st, t) && st.tasks[t].pc.Finishing?
      modifies this
      ensures Inv(st, parses) && At(st, t) && st.tasks[t].pc.Returned? && st.tasks[t].exec.Some?
      ensures RecordedIfThere(st, t, old(st).tasks[t].pc.outcome, old(st).tasks[t].pc.at)
      ensures st.tasks[t].job == old(st).tasks[t].job && st.tasks[t].source == old(st).tasks[t].source
      ensures st.tasks[t].startedAt == old(st).tasks[t].startedAt
      ensures old(st).tasks[t].pc.outcome.Response? ==> LastRunIs(st.db, st.tasks[t].job.id, old(st).tasks[t].pc.at)
    {
      var Finishing(outcome, at) := st.tasks[t].pc;
      FinishRecords(st, parses, t);
      Do(Finish(t));
      ghost var done := st;
      Others(t, last);
      RecordStays(done, st, parses, t, outcome, at);
      if outcome.Response? {
        StampKeepsRecord(st, parses, t, outcome, at);
        Do(Stamp(t));
      }
    }

    /** run itself: INSERT, watch, request, UPDATE, and last_run_at after a response, with
        the others free to move at every point. `reply` is what the server would answer; a cancelled request
        may still return it (`heeds` false). None means the INSERT was refused. */
    method Run(t: TaskId, startedAt: Time, first: seq<Event>, rounds: seq<(seq<Event>, bool)>, middle: seq<Event>, last: seq<Event>,
               reply: Outcome, heeds: bool, at: Time) returns (o: Option<Outcome>)
      requires Inv(st, parses) && At(st, t) && st.tasks[t].pc.Spawned? && !reply.Cancelled?
      modifies this
      ensures Inv(st, parses) && At(st, t)
      ensures o == None ==> st.tasks[t].pc.Refused?
      ensures o.Some? ==>
                && (o.value == reply || (o.value.Cancelled? && heeds))
                && st.tasks[t].pc.Returned? && st.tasks[t].exec.Some?
                && st.tasks[t].job == old(st).tasks[t].job && st.tasks[t].source == old(st).tasks[t].source
                && st.tasks[t].startedAt == startedAt
                && RecordedIfThere(st, t, o.value, at)
                && RowIs(st.db, st.tasks[t].exec.value, st.tasks[t].job.id, st.tasks[t].source, startedAt, at)
                && (o.value.Response? ==> LastRunIs(st.db, st.tasks[t].job.id, at))
    {
      Others(t, first);
      Do(Insert(t, startedAt));
      if st.tasks[t].pc.Refused? {
        return None;
      }
      Watch(t, rounds);
      var outcome := if heeds && Interrupted(st, st.tasks[t]) then Cancelled else reply;
      Do(Return(t, outcome, at));
      Others(t, middle);
      Record(t, last);
      RunRow(st, parses, t, outcome, at);
      return Some(outcome);
    }
  }

  lemma RunRow(s: State, parses: Parses, t: TaskId, o: Outcome, at: Time)
    requires Inv(s, parses) && At(s, t) && s.tasks[t].exec.Some? && RecordedIfThere(s, t, o, at)
    ensures RowIs(s.db, s.tasks[t].exec.value, s.tasks[t].job.id, s.tasks[t].source, s.tasks[t].startedAt, at)
  {
    assert TaskOk(s, t);
  }

  lemma FlagAsks(db: Tables, id: JobId)
    ensures forall x | x in RunningRows(FlagRunning(db, id), id) :: FlagRunning(db, id).execs[x].cancelRequested
  {
  }

  lemma FinishRecords(s: State, parses: Parses, t: TaskId)
    requires Inv(s, parses) && At(s, t) && s.tasks[t].pc.Finishing?
    ensures s.tasks[t].exec.Some? && SameRun(s.tasks[t], Next(s, Finish(t), parses).tasks[t])
    ensures RecordedIfThere(Next(s, Finish(t), parses), t, s.tasks[t].pc.outcome, s.tasks[t].pc.at)
  {
    assert TaskOk(s, t);
    var x := s.tasks[t].exec.value;
    if x in s.db.execs { assert ExecOk(s.db, x); }
  }

  lemma RecordStays(s: State, later: State, parses: Parses, t: TaskId, o: Outcome, at: Time)
    requires Inv(later, parses) && At(s, t) && At(later, t) && later.tasks[t] == s.tasks[t] && s.tasks[t].exec.Some?
    requires RecordedIfThere(s, t, o, at) && RowsEvolve(s.db, later.db)
    ensures RecordedIfThere(later, t, o, at)
  {
    var x := s.tasks[t].exec.value;
    assert TaskOk(later, t);
    assert x in later.db.execs ==> RowEvolves(s.db.execs[x], later.db.execs[x]);
  }

  lemma StampKeepsRecord(s: State, parses: Parses, t: TaskId, o: Outcome, at: Time)
    requires Inv(s, parses) && At(s, t) && s.tasks[t].pc.Stamping? && s.tasks[t].exec.Some?
    requires RecordedIfThere(s, t, o, at)
    ensures RecordedIfThere(Next(s, Stamp(t), parses), t, o, at)
    ensures LastRunIs(Next(s, Stamp(t), parses).db, s.tasks[t].job.id, s.tasks[t].pc.at)
  {
  }
}
