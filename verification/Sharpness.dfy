/** Behaviours from any tables at rest that show what the code does not promise: the overlap
    bounds are reached for every number of starts, admin triggers break them, and a
    cancelled run can succeed. */
module Sharpness {
  import opened Domain
  import opened Tables
  import opened Scheduler
  import opened Protocol
  import opened Invariants
  import opened Overlap

  /** A start in the window can always insert its row next. */
  lemma OneMoreRuns(b: Behavior, parses: Parses, id: JobId, t: TaskId) returns (c: Behavior)
    requires IsBehavior(b, parses) && t in Pending(Last(b), id) && id in Last(b).db.jobs
    ensures IsBehavior(c, parses) && c.events == b.events + [Insert(t, 1)]
    ensures Enabled(Last(b), Insert(t, 1)) && c.states == b.states + [Next(Last(b), Insert(t, 1), parses)]
    ensures Last(c).db.jobs == Last(b).db.jobs && Last(c).tasks.Keys == Last(b).tasks.Keys
    ensures |RunningRows(Last(c).db, id)| == |RunningRows(Last(b).db, id)| + 1
    ensures |Unflagged(Last(c).db, id)| == |Unflagged(Last(b).db, id)| + 1
    ensures Pending(Last(c), id) == Pending(Last(b), id) - {t}
  {
    c := Extend(b, Insert(t, 1), parses);
    InvAlways(b, parses, |b.events|);
    InsertedStart(Last(b), Insert(t, 1), parses, id);
    InsertCounts(Last(b), Insert(t, 1), parses, id);
  }

  /** From state `n` on the behaviour only inserts rows. */
  ghost predicate OnlyInserts(b: Behavior, n: nat) {
    && n < |b.states|
    && (forall i | n <= i < |b.events| :: b.events[i].Insert?)
    && (forall i | n <= i < |b.states| :: b.states[i].db.jobs == b.states[n].db.jobs && b.states[i].tasks.Keys == b.states[n].tasks.Keys)
  }

  lemma InsertsFirst(b: Behavior, m: Behavior, c: Behavior)
    requires |b.states| == |b.events| + 1 && |m.states| == |m.events| + 1 && |c.states| == |c.events| + 1
    requires |m.events| == |b.events| + 1 && b.states <= m.states <= c.states && b.events <= m.events <= c.events
    requires m.events[|b.events|].Insert? && OnlyInserts(c, |m.events|)
    requires Last(m).db.jobs == Last(b).db.jobs && Last(m).tasks.Keys == Last(b).tasks.Keys
    ensures OnlyInserts(c, |b.events|)
  {
    assert c.events[|b.events|] == m.events[|b.events|];
    assert c.states[|b.events|] == m.states[|b.events|] == Last(b) && c.states[|m.events|] == Last(m);
  }

  /** Both bounds are sharp: from any state, however many starts are in the window, all of
      them can come to run together, none asked to stop. */
  lemma {:induction false} PendingStartsAllRun(b: Behavior, parses: Parses, id: JobId, ts: set<TaskId>) returns (c: Behavior)
    requires IsBehavior(b, parses) && ts <= Pending(Last(b), id) && id in Last(b).db.jobs
    ensures IsBehavior(c, parses) && b.states <= c.states && b.events <= c.events && OnlyInserts(c, |b.events|)
    ensures |RunningRows(Last(c).db, id)| == |RunningRows(Last(b).db, id)| + |ts|
    ensures |Unflagged(Last(c).db, id)| == |Unflagged(Last(b).db, id)| + |ts|
    decreases |ts|
  {
    if ts == {} {
      c := b;
    } else {
      var t :| t in ts;
      assert t in Pending(Last(b), id);
      var m := OneMoreRuns(b, parses, id, t);
      c := PendingStartsAllRun(m, parses, id, ts - {t});
      InsertsFirst(b, m, c);
    }
  }

  /** The first `k` tasks. */
  function Crew(k: nat): (ts: set<TaskId>)
    ensures |ts| == k && forall t: TaskId :: t in ts <==> t < k
  {
    if k == 0 then {} else Crew(k - 1) + {k - 1}
  }

  /** No step edits a job, no admin triggers one, no read fails, no task but the first `k` starts. */
  ghost predicate Crowd(b: Behavior, db: Tables, k: nat) {
    && (forall i | 0 <= i < |b.states| :: b.states[i].db.jobs == db.jobs && b.states[i].tasks.Keys <= Crew(k))
    && (forall i | 0 <= i < |b.events| :: (b.events[i].Trigger? ==> !b.events[i].admin) && (b.events[i].Check? ==> b.events[i].readOk))
  }

  lemma ExtendCrowd(b: Behavior, e: Event, parses: Parses, db: Tables, k: nat) returns (c: Behavior)
    requires IsBehavior(b, parses) && Enabled(Last(b), e) && Crowd(b, db, k)
    requires Next(Last(b), e, parses).db.jobs == db.jobs && Next(Last(b), e, parses).tasks.Keys <= Crew(k)
    requires (e.Trigger? ==> !e.admin) && (e.Check? ==> e.readOk)
    ensures IsBehavior(c, parses) && c.events == b.events + [e] && c.states == b.states + [Next(Last(b), e, parses)] && Crowd(c, db, k)
  {
    c := Extend(b, e, parses);
    forall i | 0 <= i < |c.states|
      ensures c.states[i].db.jobs == db.jobs && c.states[i].tasks.Keys <= Crew(k)
    {
      if i < |b.states| { assert c.states[i] == b.states[i]; }
    }
  }

  lemma CrowdIsNarrow(b: Behavior, parses: Parses, db: Tables, k: nat, id: JobId)
    requires IsBehavior(b, parses) && Crowd(b, db, k) && id in db.jobs
    ensures AlwaysPolicy(b, id, db.jobs[id].policy)
    ensures forall i | 0 <= i < |b.states| :: |Pending(b.states[i], id)| <= k && |Replacing(b.states[i], id)| <= k
  {
    forall i | 0 <= i < |b.states|
      ensures |Pending(b.states[i], id)| <= k && |Replacing(b.states[i], id)| <= k
    {
      SubsetSize(Pending(b.states[i], id), Crew(k));
      SubsetSize(Replacing(b.states[i], id), Crew(k));
    }
  }

  /** Tables `db` with `k` manual starts of job `id`, the first `n` of them past their check or flag. */
  function Started(db: Tables, id: JobId, k: nat, n: nat): State
    requires id in db.jobs
  {
    Init(db).(tasks := map t | t in Crew(k) ::
      Task(Manual, Triggered(id, db.jobs[id], false), None, if t < n then Spawned else Begun, None, 0, false, false))
  }

  /** Tables at rest: nothing to find running, nothing to flag. */
  ghost predicate AtRest(db: Tables) {
    TablesOk(db) && forall x | x in db.execs :: db.execs[x].status != Running
  }

  lemma NothingRuns(db: Tables, id: JobId)
    requires AtRest(db)
    ensures RunningRows(db, id) == {} && Unflagged(db, id) == {} && FlagRunning(db, id) == db
  {
    assert FlagRunning(db, id).execs == db.execs;
  }

  lemma TriggerStep(db: Tables, parses: Parses, id: JobId, k: nat)
    requires id in db.jobs
    ensures Enabled(Started(db, id, k, 0), Trigger(k, id, false))
    ensures Next(Started(db, id, k, 0), Trigger(k, id, false), parses) == Started(db, id, k + 1, 0)
  {
    assert Next(Started(db, id, k, 0), Trigger(k, id, false), parses).tasks == Started(db, id, k + 1, 0).tasks;
  }

  /** The check or flag of start `n`. */
  function Passing(db: Tables, id: JobId, n: nat): Event
    requires id in db.jobs
  {
    if db.jobs[id].policy.Forbid? then Check(n, true) else Flag(n)
  }

  lemma PassStep(db: Tables, parses: Parses, id: JobId, k: nat, n: nat)
    requires AtRest(db) && id in db.jobs && !db.jobs[id].policy.Other? && n < k
    ensures Enabled(Started(db, id, k, n), Passing(db, id, n))
    ensures Next(Started(db, id, k, n), Passing(db, id, n), parses) == Started(db, id, k, n + 1)
  {
    NothingRuns(db, id);
    assert n in Crew(k);
    assert Next(Started(db, id, k, n), Passing(db, id, n), parses).tasks == Started(db, id, k, n + 1).tasks;
  }

  lemma StartedPending(db: Tables, id: JobId, k: nat)
    requires id in db.jobs
    ensures Pending(Started(db, id, k, k), id) == Crew(k)
  {
  }

  lemma AtStart(db: Tables, parses: Parses, id: JobId, k: nat) returns (b: Behavior)
    requires AtRest(db) && id in db.jobs
    ensures IsBehavior(b, parses) && b.states == [Init(db)] && b.events == [] && Last(b) == Started(db, id, 0, 0) && Crowd(b, db, k)
  {
    b := Behavior([Init(db)], []);
    assert Started(db, id, 0, 0).tasks == map[];
  }

  lemma TriggerNext(b: Behavior, db: Tables, parses: Parses, id: JobId, k: nat, n: nat) returns (c: Behavior)
    requires id in db.jobs && IsBehavior(b, parses) && Last(b) == Started(db, id, n, 0) && Crowd(b, db, k) && n < k
    ensures IsBehavior(c, parses) && c.states == b.states + [Started(db, id, n + 1, 0)] && c.events == b.events + [Trigger(n, id, false)]
    ensures Crowd(c, db, k)
  {
    TriggerStep(db, parses, id, n);
    c := ExtendCrowd(b, Trigger(n, id, false), parses, db, k);
  }

  lemma PassNext(b: Behavior, db: Tables, parses: Parses, id: JobId, k: nat, n: nat) returns (c: Behavior)
    requires AtRest(db) && id in db.jobs && !db.jobs[id].policy.Other? && n < k
    requires IsBehavior(b, parses) && Last(b) == Started(db, id, k, n) && Crowd(b, db, k)
    ensures IsBehavior(c, parses) && c.states == b.states + [Started(db, id, k, n + 1)] && c.events == b.events + [Passing(db, id, n)]
    ensures Crowd(c, db, k)
  {
    PassStep(db, parses, id, k, n);
    c := ExtendCrowd(b, Passing(db, id, n), parses, db, k);
  }

  lemma {:induction false} TriggerAll(db: Tables, parses: Parses, id: JobId, k: nat, n: nat) returns (b: Behavior)
    requires AtRest(db) && id in db.jobs && n <= k
    ensures IsBehavior(b, parses) && b.states[0] == Init(db) && Last(b) == Started(db, id, n, 0) && Crowd(b, db, k)
  {
    if n == 0 {
      b := AtStart(db, parses, id, k);
    } else {
      b := TriggerAll(db, parses, id, k, n - 1);
      b := TriggerNext(b, db, parses, id, k, n - 1);
    }
  }

  lemma {:induction false} PassAll(db: Tables, parses: Parses, id: JobId, k: nat, n: nat) returns (b: Behavior)
    requires AtRest(db) && id in db.jobs && !db.jobs[id].policy.Other? && n <= k
    ensures IsBehavior(b, parses) && b.states[0] == Init(db) && Last(b) == Started(db, id, k, n) && Crowd(b, db, k)
  {
    if n == 0 {
      b := TriggerAll(db, parses, id, k, k);
    } else {
      b := PassAll(db, parses, id, k, n - 1);
      b := PassNext(b, db, parses, id, k, n - 1);
    }
  }

  lemma AllRun(db: Tables, parses: Parses, id: JobId, k: nat) returns (b: Behavior)
    requires AtRest(db) && id in db.jobs && !db.jobs[id].policy.Other?
    ensures IsBehavior(b, parses) && b.states[0] == Init(db) && Crowd(b, db, k)
    ensures |RunningRows(Last(b).db, id)| == k && |Unflagged(Last(b).db, id)| == k
  {
    var m := PassAll(db, parses, id, k, k);
    NothingRuns(db, id);
    StartedPending(db, id, k);
    b := PendingStartsAllRun(m, parses, id, Crew(k));
    InsertsKeepCrowd(m, b, db, k);
  }

  lemma InsertsKeepCrowd(m: Behavior, b: Behavior, db: Tables, k: nat)
    requires |m.states| == |m.events| + 1 && |b.states| == |b.events| + 1 && Crowd(m, db, k)
    requires m.states <= b.states && m.events <= b.events && OnlyInserts(b, |m.events|)
    ensures Crowd(b, db, k)
  {
    assert b.states[|m.events|] == m.states[|m.events|];
    forall i | 0 <= i < |b.states|
      ensures b.states[i].db.jobs == db.jobs && b.states[i].tasks.Keys <= Crew(k)
    {
      if i < |m.states| { assert b.states[i] == m.states[i]; }
    }
    forall i | 0 <= i < |b.events|
      ensures (b.events[i].Trigger? ==> !b.events[i].admin) && (b.events[i].Check? ==> b.events[i].readOk)
    {
      if i < |m.events| { assert b.events[i] == m.events[i]; }
    }
  }

  /** For every `k` and from any tables at rest: a behaviour that meets all the hypotheses of
      ForbidLimitsOverlap with `k` ends with `k` rows running. */
  lemma ForbidBoundIsReached(db: Tables, parses: Parses, id: JobId, k: nat) returns (b: Behavior)
    requires AtRest(db) && id in db.jobs && db.jobs[id].policy == Forbid
    ensures IsBehavior(b, parses) && b.states[0] == Init(db) && AlwaysPolicy(b, id, Forbid)
    ensures forall i | 0 <= i < |b.states| :: |Pending(b.states[i], id)| <= k
    ensures forall i | 0 <= i < |b.events| && b.events[i].Check? :: b.events[i].readOk
    ensures |RunningRows(Last(b).db, id)| == k
  {
    b := AllRun(db, parses, id, k);
    CrowdIsNarrow(b, parses, db, k, id);
  }

  /** And one that meets all the hypotheses of ReplaceLimitsOverlap ends with `k` rows
      running that nobody has asked to stop: triggers that flag before any of them inserts. */
  lemma ReplaceBoundIsReached(db: Tables, parses: Parses, id: JobId, k: nat) returns (b: Behavior)
    requires AtRest(db) && id in db.jobs && db.jobs[id].policy == Replace
    ensures IsBehavior(b, parses) && b.states[0] == Init(db) && AlwaysPolicy(b, id, Replace)
    ensures forall i | 0 <= i < |b.states| :: |Replacing(b.states[i], id)| <= k
    ensures |Unflagged(Last(b).db, id)| == k
  {
    b := AllRun(db, parses, id, k);
    CrowdIsNarrow(b, parses, db, k, id);
  }

  lemma TwoTriggered(db: Tables, parses: Parses, id: JobId) returns (c: Behavior)
    requires AtRest(db) && id in db.jobs
    ensures IsBehavior(c, parses) && c.states[0] == Init(db) && Last(c) == Started(db, id, 2, 0) && Crowd(c, db, 2)
    ensures c.events == [Trigger(0, id, false), Trigger(1, id, false)]
  {
    c := AtStart(db, parses, id, 2);
    c := TriggerNext(c, db, parses, id, 2, 0);
    c := TriggerNext(c, db, parses, id, 2, 1);
  }

  lemma TwoPass(db: Tables, parses: Parses, id: JobId) returns (c: Behavior)
    requires AtRest(db) && id in db.jobs && db.jobs[id].policy == Forbid
    ensures IsBehavior(c, parses) && c.states[0] == Init(db) && Last(c) == Started(db, id, 2, 2)
    ensures c.events == [Trigger(0, id, false), Trigger(1, id, false), Check(0, true), Check(1, true)]
  {
    c := TwoTriggered(db, parses, id);
    c := PassNext(c, db, parses, id, 2, 0);
    c := PassNext(c, db, parses, id, 2, 1);
  }

  /** For two: manual triggers of one Forbid job, both of whose checks read no running row. */
  lemma ForbidCanOverlap(db: Tables, parses: Parses, id: JobId) returns (c: Behavior)
    requires AtRest(db) && id in db.jobs && db.jobs[id].policy == Forbid
    ensures IsBehavior(c, parses) && c.states[0] == Init(db)
    ensures c.events == [Trigger(0, id, false), Trigger(1, id, false), Check(0, true), Check(1, true), Insert(0, 1), Insert(1, 1)]
    ensures |RunningRows(Last(c).db, id)| == 2
  {
    var m := TwoPass(db, parses, id);
    StartedPending(db, id, 2);
    NothingRuns(db, id);
    c := BothRun(m, parses, id);
  }

  lemma BothRun(b: Behavior, parses: Parses, id: JobId) returns (c: Behavior)
    requires IsBehavior(b, parses) && 0 in Pending(Last(b), id) && 1 in Pending(Last(b), id) && id in Last(b).db.jobs
    ensures IsBehavior(c, parses) && c.events == b.events + [Insert(0, 1), Insert(1, 1)] && c.states[0] == b.states[0]
    ensures |RunningRows(Last(c).db, id)| == |RunningRows(Last(b).db, id)| + 2
  {
    var m := OneMoreRuns(b, parses, id, 0);
    c := OneMoreRuns(m, parses, id, 1);
  }

  // ---- why admin triggers are left out ----

  /** At no time two starts in the window. */
  ghost predicate Alone(b: Behavior, id: JobId) {
    forall i | 0 <= i < |b.states| :: RowPolicy(b.states[i], id, Forbid) && |Pending(b.states[i], id)| <= 1
  }

  lemma ExtendAlone(b: Behavior, e: Event, parses: Parses, id: JobId, ts: set<TaskId>) returns (c: Behavior)
    requires IsBehavior(b, parses) && Enabled(Last(b), e) && Alone(b, id) && RowPolicy(Next(Last(b), e, parses), id, Forbid)
    requires Pending(Next(Last(b), e, parses), id) == ts && |ts| <= 1
    ensures IsBehavior(c, parses) && c.events == b.events + [e] && c.states == b.states + [Next(Last(b), e, parses)] && Alone(c, id)
  {
    c := Extend(b, e, parses);
    forall i | 0 <= i < |c.states|
      ensures RowPolicy(c.states[i], id, Forbid) && |Pending(c.states[i], id)| <= 1
    {
      if i < |b.states| { assert c.states[i] == b.states[i]; }
    }
  }

  lemma InsertAlone(b: Behavior, parses: Parses, id: JobId, t: TaskId) returns (c: Behavior)
    requires IsBehavior(b, parses) && Alone(b, id) && Pending(Last(b), id) == {t} && id in Last(b).db.jobs
    ensures IsBehavior(c, parses) && c.events == b.events + [Insert(t, 1)] && c.states == b.states + [Next(Last(b), Insert(t, 1), parses)]
    ensures Alone(c, id) && Pending(Last(c), id) == {} && |RunningRows(Last(c).db, id)| == |RunningRows(Last(b).db, id)| + 1
  {
    assert t in Pending(Last(b), id);
    var m := OneMoreRuns(b, parses, id, t);
    assert RowPolicy(b.states[|b.events|], id, Forbid);
    c := ExtendAlone(b, Insert(t, 1), parses, id, {});
  }

  lemma OnePasses(db: Tables, parses: Parses, id: JobId) returns (c: Behavior)
    requires AtRest(db) && id in db.jobs && !db.jobs[id].policy.Other?
    ensures IsBehavior(c, parses) && c.states[0] == Init(db) && Last(c) == Started(db, id, 1, 1) && Crowd(c, db, 1)
    ensures c.events == [Trigger(0, id, false), Passing(db, id, 0)]
  {
    c := AtStart(db, parses, id, 1);
    c := TriggerNext(c, db, parses, id, 1, 0);
    c := PassNext(c, db, parses, id, 1, 0);
  }

  lemma OneRuns(db: Tables, parses: Parses, id: JobId) returns (b: Behavior)
    requires AtRest(db) && id in db.jobs && db.jobs[id].policy == Forbid
    ensures IsBehavior(b, parses) && b.states[0] == Init(db) && b.events == [Trigger(0, id, false), Check(0, true), Insert(0, 1)]
    ensures Alone(b, id) && Pending(Last(b), id) == {} && |RunningRows(Last(b).db, id)| == 1
    ensures Last(b).tasks.Keys == {0} && Last(b).db.jobs == db.jobs
  {
    NothingRuns(db, id);
    b := OnePasses(db, parses, id);
    CrowdIsNarrow(b, parses, db, 1, id);
    StartedPending(db, id, 1);
    b := InsertAlone(b, parses, id, 0);
  }

  /** A Forbid job with never two starts in the window at once, run twice at once: the
      second start is an admin trigger, which makes no check. */
  lemma AdminTriggerBreaksForbid(db: Tables, parses: Parses, id: JobId) returns (b: Behavior)
    requires AtRest(db) && id in db.jobs && db.jobs[id].policy == Forbid
    ensures IsBehavior(b, parses) && b.states[0] == Init(db)
    ensures b.events == [Trigger(0, id, false), Check(0, true), Insert(0, 1), Trigger(1, id, true), Launch(1), Insert(1, 1)]
    ensures forall i | 0 <= i < |b.states| :: RowPolicy(b.states[i], id, Forbid) && |Pending(b.states[i], id)| <= 1
    ensures |RunningRows(Last(b).db, id)| == 2
  {
    b := OneRuns(db, parses, id);
    b := ExtendAlone(b, Trigger(1, id, true), parses, id, {});
    b := ExtendAlone(b, Launch(1), parses, id, {1});
    b := InsertAlone(b, parses, id, 1);
  }

  // ---- cancelled, and yet a success ----

  /** The run of task 0, in flight on row `x`. */
  ghost predicate InFlightOn(s: State, x: ExecId) {
    && s.tasks.Keys <= {0, 1} && At(s, 0) && s.tasks[0].pc.Requesting? && s.tasks[0].exec == Some(x)
    && x in s.db.execs && s.db.execs[x].status == Running
  }

  lemma OneInFlight(db: Tables, parses: Parses, id: JobId) returns (b: Behavior)
    requires AtRest(db) && id in db.jobs && db.jobs[id].policy == Replace
    ensures IsBehavior(b, parses) && b.states[0] == Init(db) && InFlightOn(Last(b), db.nextExec) && Last(b).db.jobs == db.jobs
    ensures Last(b).tasks.Keys == {0} && Last(b).tasks[0].watching && Last(b).db.execs[db.nextExec].jobId == id
  {
    var m := OnePasses(db, parses, id);
    StartedPending(db, id, 1);
    b := OneMoreRuns(m, parses, id, 0);
    assert b.states[0] == m.states[0];
  }

  lemma OneFlagged(db: Tables, parses: Parses, id: JobId) returns (b: Behavior)
    requires AtRest(db) && id in db.jobs && db.jobs[id].policy == Replace
    ensures IsBehavior(b, parses) && b.states[0] == Init(db) && InFlightOn(Last(b), db.nextExec)
    ensures Last(b).tasks[0].watching && Last(b).db.execs[db.nextExec].cancelRequested
  {
    b := OneInFlight(db, parses, id);
    b := Extend(b, Trigger(1, id, false), parses);
    b := Extend(b, Flag(1), parses);
  }

  /** A run whose row was flagged, whose watcher read the flag and cancelled its request,
      is recorded as a success: the response had already arrived. */
  lemma CancelledCanSucceed(db: Tables, parses: Parses, id: JobId) returns (b: Behavior)
    requires AtRest(db) && id in db.jobs && db.jobs[id].policy == Replace
    ensures IsBehavior(b, parses) && b.states[0] == Init(db)
    ensures At(Last(b), 0) && Last(b).tasks[0].cancelReq && Last(b).tasks[0].exec == Some(db.nextExec)
    ensures |b.events| > 2 && b.events[|b.events| - 3] == Poll(0, true) && b.events[|b.events| - 2] == Return(0, Response(200, ""), 2)
    ensures db.nextExec in Last(b).db.execs
    ensures Last(b).db.execs[db.nextExec].cancelRequested && Last(b).db.execs[db.nextExec].status == Success
  {
    b := OneFlagged(db, parses, id);
    b := Extend(b, Poll(0, true), parses);
    b := Extend(b, Return(0, Response(200, ""), 2), parses);
    b := Extend(b, Finish(0), parses);
  }
}
