/** How far the Forbid and Replace policies keep runs of one job apart when the check
    (or the flag) and the INSERT are separate steps of concurrent starts. */
module Overlap {
  import opened Domain
  import opened Tables
  import opened Scheduler
  import opened Protocol
  import opened Invariants

  // ---- the policy a job always has ----

  ghost predicate RowPolicy(s: State, id: JobId, p: Policy) {
    id in s.db.jobs ==> s.db.jobs[id].policy == p
  }

  ghost predicate TasksCarry(s: State, id: JobId, p: Policy) {
    forall t | t in s.tasks && s.tasks[t].job.id == id :: s.tasks[t].job.policy == p
  }

  ghost predicate CronCarries(s: State, id: JobId, p: Policy) {
    && (forall c | c in s.worker.live && s.worker.live[c].job.id == id :: s.worker.live[c].job.policy == p)
    && (s.snapshot.Some? ==>
          forall k | 0 <= k < |s.snapshot.value| && s.snapshot.value[k].job.id == id :: s.snapshot.value[k].job.policy == p)
  }

  ghost predicate CarriedPolicy(s: State, id: JobId, p: Policy) {
    TasksCarry(s, id, p) && CronCarries(s, id, p)
  }

  /** The row of job `id` has policy `p` whenever it exists and no admin triggers it. */
  ghost predicate AlwaysPolicy(b: Behavior, id: JobId, p: Policy) {
    && (forall i | 0 <= i < |b.states| :: RowPolicy(b.states[i], id, p))
    && (forall i | 0 <= i < |b.events| :: b.events[i].Trigger? && b.events[i].id == id ==> !b.events[i].admin)
  }

  lemma TasksCarryStep(s: State, e: Event, parses: Parses, id: JobId, p: Policy)
    requires Inv(s, parses) && Enabled(s, e) && RowPolicy(s, id, p) && CarriedPolicy(s, id, p)
    requires e.Trigger? && e.id == id ==> !e.admin
    ensures TasksCarry(Next(s, e, parses), id, p)
  {
    var s' := Next(s, e, parses);
    forall t | t in s'.tasks && s'.tasks[t].job.id == id
      ensures s'.tasks[t].job.policy == p
    {
      if t in s.tasks { TaskChanges(s, e, parses, t); } else { NewTask(s, e, parses, t); }
    }
  }

  lemma CronCarriesStep(s: State, e: Event, parses: Parses, id: JobId, p: Policy)
    requires Inv(s, parses) && Enabled(s, e) && RowPolicy(s, id, p) && CronCarries(s, id, p)
    ensures CronCarries(Next(s, e, parses), id, p)
  {
    var s' := Next(s, e, parses);
    if e.Sync? {
      ReconcileSources(s.worker, s.snapshot.value, e.stamps, parses);
      forall c | c in s'.worker.live && s'.worker.live[c].job.id == id
        ensures s'.worker.live[c].job.policy == p
      {
        assert Sourced(s.worker, s'.worker, s.snapshot.value, c);
      }
    }
  }

  lemma {:induction false} CarriedAlways(b: Behavior, parses: Parses, id: JobId, p: Policy, i: nat)
    requires IsBehavior(b, parses) && AlwaysPolicy(b, id, p) && i < |b.states|
    ensures CarriedPolicy(b.states[i], id, p)
  {
    if i != 0 {
      CarriedAlways(b, parses, id, p, i - 1);
      InvAlways(b, parses, i - 1);
      assert StepAt(b, i - 1, parses) && RowPolicy(b.states[i - 1], id, p);
      TasksCarryStep(b.states[i - 1], b.events[i - 1], parses, id, p);
      CronCarriesStep(b.states[i - 1], b.events[i - 1], parses, id, p);
    }
  }

  // ---- Forbid ----

  /** Starts that have passed the check and not yet inserted their row. */
  ghost function Pending(s: State, id: JobId): set<TaskId> {
    set t | t in s.tasks && s.tasks[t].job.id == id && s.tasks[t].pc.Spawned?
  }

  ghost predicate ForbidBound(s: State, id: JobId, k: nat) {
    RunningRows(s.db, id) != {} ==> |RunningRows(s.db, id)| + |Pending(s, id)| <= k
  }

  lemma SubsetSize<T>(a: set<T>, b: set<T>)
    requires a <= b
    ensures |a| <= |b|
  {
    assert b == a + (b - a);
  }

  /** A row of this job starts to run in this step. */
  ghost predicate Inserts(s: State, e: Event, id: JobId) {
    e.Insert? && At(s, e.t) && s.tasks[e.t].job.id == id && id in s.db.jobs
  }

  lemma InsertedRow(s: State, e: Event, parses: Parses, id: JobId)
    requires TablesOk(s.db) && Enabled(s, e) && Inserts(s, e, id)
    ensures s.db.nextExec !in s.db.execs
    ensures RunningRows(Next(s, e, parses).db, id) == RunningRows(s.db, id) + {s.db.nextExec}
    ensures Unflagged(Next(s, e, parses).db, id) == Unflagged(s.db, id) + {s.db.nextExec}
  {
    assert s.db.nextExec in s.db.execs ==> ExecOk(s.db, s.db.nextExec);
  }

  lemma InsertedStart(s: State, e: Event, parses: Parses, id: JobId)
    requires Enabled(s, e) && Inserts(s, e, id)
    ensures e.t in Pending(s, id) && Pending(Next(s, e, parses), id) == Pending(s, id) - {e.t}
    ensures e.t in Replacing(s, id) && Replacing(Next(s, e, parses), id) == Replacing(s, id) - {e.t}
  {
  }

  lemma InsertCounts(s: State, e: Event, parses: Parses, id: JobId)
    requires TablesOk(s.db) && Enabled(s, e) && Inserts(s, e, id)
    ensures |RunningRows(Next(s, e, parses).db, id)| == |RunningRows(s.db, id)| + 1
    ensures |Unflagged(Next(s, e, parses).db, id)| == |Unflagged(s.db, id)| + 1
    ensures |Pending(Next(s, e, parses), id)| == |Pending(s, id)| - 1
    ensures |Replacing(Next(s, e, parses), id)| == |Replacing(s, id)| - 1
  {
    InsertedRow(s, e, parses, id);
    InsertedStart(s, e, parses, id);
  }

  lemma OtherRows(s: State, e: Event, parses: Parses, id: JobId)
    requires Inv(s, parses) && Enabled(s, e) && !Inserts(s, e, id)
    ensures RunningRows(Next(s, e, parses).db, id) <= RunningRows(s.db, id)
    ensures Unflagged(Next(s, e, parses).db, id) <= Unflagged(s.db, id)
  {
    TablesStep(s, e, parses);
    var s' := Next(s, e, parses);
    forall x | x in RunningRows(s'.db, id)
      ensures x in RunningRows(s.db, id) && (s.db.execs[x].cancelRequested ==> s'.db.execs[x].cancelRequested)
    {
      RowsStart(s, e, x, parses);
    }
  }

  lemma {:induction false} ForbidStep(s: State, e: Event, parses: Parses, id: JobId, k: nat)
    requires Inv(s, parses) && Enabled(s, e) && CarriedPolicy(s, id, Forbid)
    requires e.Check? && s.tasks[e.t].job.id == id ==> e.readOk
    requires |Pending(s, id)| <= k && ForbidBound(s, id, k)
    ensures ForbidBound(Next(s, e, parses), id, k)
  {
    if Inserts(s, e, id) {
      InsertCounts(s, e, parses, id);
    } else {
      OtherRows(s, e, parses, id);
      SubsetSize(RunningRows(Next(s, e, parses).db, id), RunningRows(s.db, id));
      if RunningRows(s.db, id) != {} {
        NoNewPending(s, e, parses, id);
        SubsetSize(Pending(Next(s, e, parses), id), Pending(s, id));
      }
    }
  }

  lemma NoNewStart(s: State, e: Event, parses: Parses, id: JobId, t: TaskId)
    requires Inv(s, parses) && Enabled(s, e) && CarriedPolicy(s, id, Forbid) && t in s.tasks
    requires e.Check? && s.tasks[e.t].job.id == id ==> e.readOk
    requires RunningRows(s.db, id) != {}
    ensures t in Pending(Next(s, e, parses), id) ==> t in Pending(s, id)
  {
    assert TaskOk(s, t);
    if Actor(e) != Some(t) { OthersLeaveTask(s, e, parses, t); }
  }

  lemma NoNewPending(s: State, e: Event, parses: Parses, id: JobId)
    requires Inv(s, parses) && Enabled(s, e) && CarriedPolicy(s, id, Forbid)
    requires e.Check? && s.tasks[e.t].job.id == id ==> e.readOk
    requires RunningRows(s.db, id) != {}
    ensures Pending(Next(s, e, parses), id) <= Pending(s, id)
  {
    var s' := Next(s, e, parses);
    forall t | t in Pending(s', id)
      ensures t in Pending(s, id)
    {
      if t !in s.tasks { NewTask(s, e, parses, t); } else { NoNewStart(s, e, parses, id, t); }
    }
  }

  /** If at most `k` starts of an always-Forbid job are ever between their check and
      their INSERT at once, at most `k` of its rows are ever running: with one start at
      a time, Forbid is mutual exclusion across both processes. */
  lemma {:induction false} ForbidLimitsOverlap(b: Behavior, parses: Parses, id: JobId, k: nat, i: nat)
    requires IsBehavior(b, parses) && AlwaysPolicy(b, id, Forbid) && i < |b.states|
    requires forall j | 0 <= j < |b.states| :: |Pending(b.states[j], id)| <= k
    requires forall j | 0 <= j < |b.events| ::
               b.events[j].Check? && At(b.states[j], b.events[j].t) && b.states[j].tasks[b.events[j].t].job.id == id
               ==> b.events[j].readOk
    ensures |RunningRows(b.states[i].db, id)| <= k && ForbidBound(b.states[i], id, k)
  {
    if i == 0 {
      assert RunningRows(b.states[0].db, id) == {};
    } else {
      ForbidLimitsOverlap(b, parses, id, k, i - 1);
      InvAlways(b, parses, i - 1);
      CarriedAlways(b, parses, id, Forbid, i - 1);
      assert StepAt(b, i - 1, parses);
      ForbidStep(b.states[i - 1], b.events[i - 1], parses, id, k);
    }
  }

  // ---- Replace ----

  /** Starts that have flagged the running rows and not yet inserted their own. */
  ghost function Replacing(s: State, id: JobId): set<TaskId> {
    set t | t in s.tasks && s.tasks[t].job.id == id && (s.tasks[t].pc.Flagged? || s.tasks[t].pc.Spawned?)
  }

  /** Running rows nobody has asked to stop. */
  ghost function Unflagged(db: Tables, id: JobId): set<ExecId> {
    set x | x in RunningRows(db, id) && !db.execs[x].cancelRequested
  }

  lemma ReplaceStep(s: State, e: Event, parses: Parses, id: JobId, k: nat)
    requires Inv(s, parses) && Enabled(s, e) && CarriedPolicy(s, id, Replace)
    ensures |Unflagged(s.db, id)| + |Replacing(s, id)| <= k && |Replacing(Next(s, e, parses), id)| <= k ==>
              |Unflagged(Next(s, e, parses).db, id)| + |Replacing(Next(s, e, parses), id)| <= k
  {
    var s' := Next(s, e, parses);
    if Inserts(s, e, id) {
      InsertCounts(s, e, parses, id);
    } else if e.Flag? && s.tasks[e.t].job.id == id {
      assert Unflagged(s'.db, id) == {};
    } else {
      OtherRows(s, e, parses, id);
      SubsetSize(Unflagged(s'.db, id), Unflagged(s.db, id));
      NoNewReplacing(s, e, parses, id);
      SubsetSize(Replacing(s', id), Replacing(s, id));
    }
  }

  lemma ReplaceInto(b: Behavior, parses: Parses, id: JobId, k: nat, i: nat)
    requires IsBehavior(b, parses) && AlwaysPolicy(b, id, Replace) && 0 < i < |b.states|
    requires |Unflagged(b.states[i - 1].db, id)| + |Replacing(b.states[i - 1], id)| <= k
    requires |Replacing(b.states[i], id)| <= k
    ensures |Unflagged(b.states[i].db, id)| + |Replacing(b.states[i], id)| <= k
  {
    InvAlways(b, parses, i - 1);
    CarriedAlways(b, parses, id, Replace, i - 1);
    assert StepAt(b, i - 1, parses);
    ReplaceStep(b.states[i - 1], b.events[i - 1], parses, id, k);
  }

  lemma NoNewReplacing(s: State, e: Event, parses: Parses, id: JobId)
    requires Inv(s, parses) && Enabled(s, e) && CarriedPolicy(s, id, Replace)
    requires !(e.Flag? && s.tasks[e.t].job.id == id)
    ensures Replacing(Next(s, e, parses), id) <= Replacing(s, id)
  {
    forall t | t in Replacing(Next(s, e, parses), id)
      ensures t in Replacing(s, id)
    {
      if t !in s.tasks { NewTask(s, e, parses, t); } else { NoNewWindow(s, e, parses, id, t); }
    }
  }

  lemma NoNewWindow(s: State, e: Event, parses: Parses, id: JobId, t: TaskId)
    requires Inv(s, parses) && Enabled(s, e) && CarriedPolicy(s, id, Replace) && t in s.tasks
    requires !(e.Flag? && s.tasks[e.t].job.id == id)
    ensures t in Replacing(Next(s, e, parses), id) ==> t in Replacing(s, id)
  {
    assert TaskOk(s, t);
    if Actor(e) != Some(t) { OthersLeaveTask(s, e, parses, t); }
  }

  /** For an always-Replace job, running rows not asked to stop plus starts between
      their flag and their INSERT never exceed the number of such windows that overlap:
      with one start at a time, at most one run is not asked to stop. */
  lemma {:induction false} ReplaceLimitsOverlap(b: Behavior, parses: Parses, id: JobId, k: nat, i: nat)
    requires IsBehavior(b, parses) && AlwaysPolicy(b, id, Replace) && i < |b.states|
    requires forall j | 0 <= j < |b.states| :: |Replacing(b.states[j], id)| <= k
    ensures |Unflagged(b.states[i].db, id)| + |Replacing(b.states[i], id)| <= k
  {
    if i == 0 {
      assert Unflagged(b.states[0].db, id) == {};
      assert |Replacing(b.states[0], id)| <= k;
    } else {
      ReplaceLimitsOverlap(b, parses, id, k, i - 1);
      assert |Replacing(b.states[i], id)| <= k;
      ReplaceInto(b, parses, id, k, i);
    }
  }
}
