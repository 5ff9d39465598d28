/** When sync's stamps can be trusted: over whole runs, the passes that leave cron
    exactly as the job table says, and the passes that change nothing. */
module Freshness {
  import opened Domain
  import opened Tables
  import opened Scheduler
  import opened Protocol
  import opened Invariants

  // ---- which steps change what a sync query returns ----

  ghost predicate SameRow(a: Tables, b: Tables, id: JobId) {
    && (id in a.jobs <==> id in b.jobs)
    && (id in a.jobs ==> a.jobs[id].status == b.jobs[id].status && ToDbJob(id, a.jobs[id]) == ToDbJob(id, b.jobs[id]))
  }

  /** Only the job endpoints change what sync reads: an execution that starts, finishes
      or stamps last_run_at leaves every queried column, updated_at included. */
  lemma RunsLeaveRows(s: State, e: Event, parses: Parses, id: JobId)
    requires Inv(s, parses) && Enabled(s, e) && !EditsRows(e)
    ensures SameRow(s.db, Next(s, e, parses).db, id)
  {
    if !WritesRows(e) { assert Next(s, e, parses).db == s.db; }
  }

  lemma {:induction false} RowsStay(b: Behavior, parses: Parses, i: nat, j: nat, id: JobId)
    requires IsBehavior(b, parses) && i <= j <= |b.events|
    requires forall k | i <= k < j :: !EditsRows(b.events[k])
    ensures SameRow(b.states[i].db, b.states[j].db, id)
    decreases j
  {
    if i < j {
      RowsStay(b, parses, i, j - 1, id);
      InvAlways(b, parses, j - 1);
      assert StepAt(b, j - 1, parses);
      RunsLeaveRows(b.states[j - 1], b.events[j - 1], parses, id);
    }
  }

  /** A step that edits, pauses, resumes or deletes job `id`. */
  predicate Edits(e: Event, id: JobId) {
    || (e.EditJob? && e.id == id)
    || (e.ChangeStatus? && e.id == id)
    || (e.Delete? && id in e.ids)
  }

  /** Nobody else changes a job's row, and an id that is gone does not come back. */
  lemma UneditedStep(s: State, e: Event, parses: Parses, id: JobId)
    requires Inv(s, parses) && Enabled(s, e) && !Edits(e, id) && id < s.db.nextJob
    ensures SameRow(s.db, Next(s, e, parses).db, id) && id < Next(s, e, parses).db.nextJob
  {
    if !EditsRows(e) { RunsLeaveRows(s, e, parses, id); }
  }

  lemma {:induction false} UneditedStays(b: Behavior, parses: Parses, i: nat, j: nat, id: JobId)
    requires IsBehavior(b, parses) && i <= j <= |b.events| && id < b.states[i].db.nextJob
    requires forall k | i <= k < j :: !Edits(b.events[k], id)
    ensures SameRow(b.states[i].db, b.states[j].db, id) && id < b.states[j].db.nextJob
    decreases j
  {
    if i < j {
      UneditedStays(b, parses, i, j - 1, id);
      InvAlways(b, parses, j - 1);
      assert StepAt(b, j - 1, parses);
      UneditedStep(b.states[j - 1], b.events[j - 1], parses, id);
    }
  }

  // ---- reconcile refinement over runs ----

  /** The clocks order edits and registrations as sync assumes: an edit of a registered
      job is dated after its entry's stamp, and a row that changed between the query and
      its registration is dated after the stamp the registration gets. */
  ghost predicate ClocksAgree(s: State, e: Event) {
    match e
    case EditJob(id, _, _, _, _, now) => id in s.worker.entries ==> s.worker.entries[id].scheduledAt < now
    case ChangeStatus(id, _, now) => id in s.worker.entries ==> s.worker.entries[id].scheduledAt < now
    case Sync(stamps) =>
      s.snapshot.Some? && |stamps| == |s.snapshot.value| ==>
        forall k | 0 <= k < |stamps| :: StampVisible(s, s.snapshot.value[k], stamps[k])
    case _ => true
  }

  ghost predicate StampVisible(s: State, j: DbJob, stamp: Time) {
    j.job.id in s.db.jobs ==>
      || Reg(ToDbJob(j.job.id, s.db.jobs[j.job.id])) == Reg(j)
      || stamp < s.db.jobs[j.job.id].updatedAt
  }

  /** The registration of `j.job.id` runs `j`, or its stamp gives it away. */
  ghost predicate Fresh(w: Worker, j: DbJob) {
    j.job.id in w.entries && w.entries[j.job.id].cronId in w.live ==>
      || w.live[w.entries[j.job.id].cronId] == Reg(j)
      || w.entries[j.job.id].scheduledAt < j.updatedAt
  }

  ghost predicate AllFresh(s: State) {
    && (forall id | id in s.db.jobs :: Fresh(s.worker, ToDbJob(id, s.db.jobs[id])))
    && (s.snapshot.Some? ==> forall k | 0 <= k < |s.snapshot.value| :: Fresh(s.worker, s.snapshot.value[k]))
  }

  lemma FreshSync(s: State, stamps: seq<Time>, parses: Parses)
    requires Inv(s, parses) && Enabled(s, Sync(stamps)) && AllFresh(s) && ClocksAgree(s, Sync(stamps))
    ensures AllFresh(Next(s, Sync(stamps), parses))
  {
    var rows := s.snapshot.value;
    var after := Next(s, Sync(stamps), parses).worker;
    ReconcileEffect(s.worker, rows, stamps, parses);
    forall id | id in s.db.jobs
      ensures Fresh(after, ToDbJob(id, s.db.jobs[id]))
    {
      if id in after.entries {
        assert id in Ids(rows);
        var k :| 0 <= k < |rows| && rows[k].job.id == id;
        assert Placed(s.worker, after, rows[k], stamps[k], parses);
        if UpToDate(s.worker, rows[k]) {
          assert EntryOk(s.worker, id) && Fresh(s.worker, ToDbJob(id, s.db.jobs[id]));
        } else {
          assert StampVisible(s, rows[k], stamps[k]);
        }
      }
    }
  }

  lemma FreshRows(s: State, e: Event, parses: Parses, id: JobId)
    requires Inv(s, parses) && Enabled(s, e) && !e.Sync? && AllFresh(s) && ClocksAgree(s, e)
    requires id in Next(s, e, parses).db.jobs
    ensures Fresh(s.worker, ToDbJob(id, Next(s, e, parses).db.jobs[id]))
  {
    if id in s.db.jobs { assert Fresh(s.worker, ToDbJob(id, s.db.jobs[id])); }
    if EditsRows(e) {
      assert id in s.worker.entries ==> EntryOk(s.worker, id);
    } else {
      RunsLeaveRows(s, e, parses, id);
    }
  }

  lemma FreshStep(s: State, e: Event, parses: Parses)
    requires Inv(s, parses) && Enabled(s, e) && AllFresh(s) && ClocksAgree(s, e)
    ensures AllFresh(Next(s, e, parses))
  {
    if e.Sync? {
      FreshSync(s, e.stamps, parses);
    } else {
      var s' := Next(s, e, parses);
      forall id | id in s'.db.jobs
        ensures Fresh(s'.worker, ToDbJob(id, s'.db.jobs[id]))
      {
        FreshRows(s, e, parses, id);
      }
      if s'.snapshot.Some? {
        forall k | 0 <= k < |s'.snapshot.value|
          ensures Fresh(s'.worker, s'.snapshot.value[k])
        {
          var j := s'.snapshot.value[k];
          if e.Query? { assert Fresh(s.worker, ToDbJob(j.job.id, s.db.jobs[j.job.id])); } else { assert Fresh(s.worker, j); }
        }
      }
    }
  }

  lemma {:induction false} FreshAlways(b: Behavior, parses: Parses, i: nat)
    requires IsBehavior(b, parses) && i <= |b.events|
    requires forall k | 0 <= k < |b.events| :: ClocksAgree(b.states[k], b.events[k])
    ensures AllFresh(b.states[i])
  {
    if i != 0 {
      FreshAlways(b, parses, i - 1);
      InvAlways(b, parses, i - 1);
      assert StepAt(b, i - 1, parses);
      FreshStep(b.states[i - 1], b.events[i - 1], parses);
    }
  }

  /** When the clocks agree, every pass of every run leaves cron running exactly the
      rows it read: one registration per row that parses, with that row's fields. */
  lemma SyncMatchesItsRows(b: Behavior, parses: Parses, i: nat)
    requires IsBehavior(b, parses) && i < |b.events| && b.events[i].Sync?
    requires forall k | 0 <= k < |b.events| :: ClocksAgree(b.states[k], b.events[k])
    ensures b.states[i].snapshot.Some? && Matches(b.states[i + 1].worker, b.states[i].snapshot.value, parses)
  {
    InvAlways(b, parses, i);
    FreshAlways(b, parses, i);
    assert StepAt(b, i, parses);
    var s := b.states[i];
    var rows := s.snapshot.value;
    forall k | 0 <= k < |rows|
      ensures KeptIsCurrent(s.worker, rows[k])
    {
      assert Fresh(s.worker, rows[k]);
      if UpToDate(s.worker, rows[k]) { assert EntryOk(s.worker, rows[k].job.id); }
    }
    ReconcileRefines(s.worker, rows, b.events[i].stamps, parses);
  }

  /** Cron's table against the job table itself, field by field. */
  ghost predicate CronMatchesTable(s: State, parses: Parses) {
    && (forall c | c in s.worker.live :: Scheduled(s, s.worker.live[c].job.id, parses)
          && RunsRow(s.worker.live[c], s.worker.live[c].job.id, s.db.jobs[s.worker.live[c].job.id]))
    && (forall id | Scheduled(s, id, parses) :: exists c :: c in s.worker.live && RunsRow(s.worker.live[c], id, s.db.jobs[id]))
    && (forall c, d | c in s.worker.live && d in s.worker.live && s.worker.live[c].job.id == s.worker.live[d].job.id :: c == d)
  }

  ghost predicate Scheduled(s: State, id: JobId, parses: Parses) {
    && id in s.db.jobs && s.db.jobs[id].status == Active
    && parses("CRON_TZ=" + s.db.jobs[id].timezone + " " + s.db.jobs[id].cronExpr)
  }

  /** The registration runs the row's request under its policy, at the row's times in the
      row's zone; unless the zone has a space in it, cron reads both back. */
  ghost predicate RunsRow(reg: Registration, id: JobId, row: JobRow) {
    && reg.job.id == id && reg.job.request == row.request && reg.job.policy == row.policy
    && Names(reg.expr, row.timezone, row.cronExpr)
    && (' ' !in row.timezone ==> Zone(reg.expr) == row.timezone && Rest(reg.expr) == row.cronExpr)
  }

  lemma RegRunsRow(id: JobId, row: JobRow)
    ensures RunsRow(Reg(ToDbJob(id, row)), id, row)
    ensures Expr(ToDbJob(id, row)) == "CRON_TZ=" + row.timezone + " " + row.cronExpr
  {
    ExprReadsBack(ToDbJob(id, row));
  }

  /** No row was lost to a scan error. */
  ghost predicate Complete(db: Tables, rows: seq<DbJob>) {
    forall id | id in db.jobs && db.jobs[id].status == Active :: id in Ids(rows)
  }

  /** Query at `q`, locked part at `i`, no row edited in between, no row lost: the pass
      ends with cron equal to the job table. */
  lemma SyncMatchesTable(b: Behavior, parses: Parses, q: nat, i: nat)
    requires IsBehavior(b, parses) && q < i < |b.events| && b.events[q].Query? && b.events[i].Sync?
    requires forall k | 0 <= k < |b.events| :: ClocksAgree(b.states[k], b.events[k])
    requires forall k | q < k < i :: !EditsRows(b.events[k]) && !b.events[k].Sync?
    requires Complete(b.states[q].db, b.events[q].rows)
    ensures CronMatchesTable(b.states[i + 1], parses)
  {
    SyncRegistersTable(b, parses, q, i);
    ByFields(b.states[i + 1], parses);
  }

  /** The same in terms of what AddFunc is given. */
  ghost predicate Registers(s: State, parses: Parses) {
    && (forall c | c in s.worker.live ::
          var id := s.worker.live[c].job.id;
          && id in s.db.jobs && s.db.jobs[id].status == Active && parses(Expr(ToDbJob(id, s.db.jobs[id])))
          && s.worker.live[c] == Reg(ToDbJob(id, s.db.jobs[id])))
    && (forall id | id in s.db.jobs && s.db.jobs[id].status == Active && parses(Expr(ToDbJob(id, s.db.jobs[id]))) ::
          exists c :: c in s.worker.live && s.worker.live[c] == Reg(ToDbJob(id, s.db.jobs[id])))
    && (forall c, d | c in s.worker.live && d in s.worker.live && s.worker.live[c].job.id == s.worker.live[d].job.id :: c == d)
  }

  lemma ByFields(s: State, parses: Parses)
    requires Registers(s, parses)
    ensures CronMatchesTable(s, parses)
  {
    forall id | id in s.db.jobs
      ensures RunsRow(Reg(ToDbJob(id, s.db.jobs[id])), id, s.db.jobs[id])
      ensures Expr(ToDbJob(id, s.db.jobs[id])) == "CRON_TZ=" + s.db.jobs[id].timezone + " " + s.db.jobs[id].cronExpr
    {
      RegRunsRow(id, s.db.jobs[id]);
    }
    forall id | Scheduled(s, id, parses)
      ensures exists c :: c in s.worker.live && RunsRow(s.worker.live[c], id, s.db.jobs[id])
    {
      var c :| c in s.worker.live && s.worker.live[c] == Reg(ToDbJob(id, s.db.jobs[id]));
    }
  }

  lemma SyncRegistersTable(b: Behavior, parses: Parses, q: nat, i: nat)
    requires IsBehavior(b, parses) && q < i < |b.events| && b.events[q].Query? && b.events[i].Sync?
    requires forall k | 0 <= k < |b.events| :: ClocksAgree(b.states[k], b.events[k])
    requires forall k | q < k < i :: !EditsRows(b.events[k]) && !b.events[k].Sync?
    requires Complete(b.states[q].db, b.events[q].rows)
    ensures Registers(b.states[i + 1], parses)
  {
    SyncMatchesItsRows(b, parses, i);
    SnapshotStays(b, parses, q, i);
    assert StepAt(b, q, parses) && StepAt(b, i, parses);
    var rows := b.events[q].rows;
    var s, f := b.states[q], b.states[i + 1];
    forall id ensures SameRow(s.db, f.db, id) { RowsStay(b, parses, q, i, id); }
    forall k | 0 <= k < |rows|
      ensures rows[k].job.id in f.db.jobs && f.db.jobs[rows[k].job.id].status == Active
              && rows[k] == ToDbJob(rows[k].job.id, f.db.jobs[rows[k].job.id])
    {
      assert SameRow(s.db, f.db, rows[k].job.id);
    }
    forall id | id in f.db.jobs && f.db.jobs[id].status == Active && parses(Expr(ToDbJob(id, f.db.jobs[id])))
      ensures exists c :: c in f.worker.live && f.worker.live[c] == Reg(ToDbJob(id, f.db.jobs[id]))
    {
      assert SameRow(s.db, f.db, id);
      assert id in Ids(rows);
      var k :| 0 <= k < |rows| && rows[k].job.id == id;
      assert rows[k] == ToDbJob(id, f.db.jobs[id]);
    }
  }

  lemma {:induction false} SnapshotStays(b: Behavior, parses: Parses, q: nat, i: nat)
    requires IsBehavior(b, parses) && q < i <= |b.events| && b.events[q].Query?
    requires forall k | q < k < i :: !b.events[k].Sync?
    ensures b.states[i].snapshot == Some(b.events[q].rows)
    decreases i
  {
    assert StepAt(b, i - 1, parses);
    if q < i - 1 { SnapshotStays(b, parses, q, i - 1); }
  }

  // ---- what an endpoint's change comes to ----

  /** A query at `q` and the pass that uses it, at `i`. */
  ghost predicate Pass(b: Behavior, q: nat, i: nat) {
    && q < i < |b.events| && b.events[q].Query? && b.events[i].Sync?
    && forall k | q < k < i :: !b.events[k].Sync?
  }

  ghost predicate InCron(w: Worker, id: JobId) {
    exists c :: c in w.live && w.live[c].job.id == id
  }

  lemma PassFacts(b: Behavior, parses: Parses, q: nat, i: nat)
    requires IsBehavior(b, parses) && Pass(b, q, i)
    ensures IsSnapshot(b.states[q].db, b.events[q].rows) && b.states[i].snapshot == Some(b.events[q].rows)
    ensures var before, rows, after := b.states[i].worker, b.events[q].rows, b.states[i + 1].worker;
            && |b.events[i].stamps| == |rows| && after == Reconcile(before, rows, b.events[i].stamps, parses)
            && Linked(before, parses) && Linked(after, parses) && Dated(rows) && after.entries.Keys <= Ids(rows)
            && forall k | 0 <= k < |rows| :: Placed(before, after, rows[k], b.events[i].stamps[k], parses)
  {
    assert StepAt(b, q, parses) && StepAt(b, i, parses);
    SnapshotStays(b, parses, q, i);
    InvAlways(b, parses, i);
    ReconcileLinked(b.states[i].worker, b.events[q].rows, b.events[i].stamps, parses);
    ReconcileEffect(b.states[i].worker, b.events[q].rows, b.events[i].stamps, parses);
  }

  /** Once a job is paused or deleted, and not touched again before the query, the pass
      leaves no registration of it. */
  lemma PausedIsUnscheduled(b: Behavior, parses: Parses, p: nat, q: nat, i: nat, id: JobId)
    requires IsBehavior(b, parses) && p < q && Pass(b, q, i) && id in b.states[p].db.jobs
    requires (b.events[p].ChangeStatus? && b.events[p].id == id && b.events[p].status == Paused)
          || (b.events[p].Delete? && id in b.events[p].ids)
    requires forall k | p < k < q :: !Edits(b.events[k], id)
    ensures !InCron(b.states[i + 1].worker, id)
  {
    InvAlways(b, parses, p);
    assert StepAt(b, p, parses) && JobOk(b.states[p].db, id);
    UneditedStays(b, parses, p + 1, q, id);
    PassFacts(b, parses, q, i);
    assert id !in Ids(b.events[q].rows);
    var after := b.states[i + 1].worker;
    forall c | c in after.live ensures after.live[c].job.id != id { assert LiveOk(after, c, parses); }
  }

  /** Once a job is resumed or created, and its row is not lost to a scan error, the pass
      leaves it registered if its expression parses. */
  lemma ResumedIsScheduled(b: Behavior, parses: Parses, p: nat, q: nat, i: nat, id: JobId)
    requires IsBehavior(b, parses) && p < q && Pass(b, q, i) && id in Ids(b.events[q].rows)
    requires (b.events[p].ChangeStatus? && b.events[p].id == id && b.events[p].status == Active)
          || (b.events[p].CreateJob? && b.states[p].db.nextJob == id)
    requires forall k | p < k < q :: !Edits(b.events[k], id)
    ensures id in b.states[p + 1].db.jobs && b.states[p + 1].db.jobs[id].status == Active
    ensures b.events[p].CreateJob? ==> b.states[p + 1].db.jobs[id] == b.events[p].row
    ensures var row := b.states[p + 1].db.jobs[id];
            parses("CRON_TZ=" + row.timezone + " " + row.cronExpr) ==>
              InCron(b.states[i + 1].worker, id)
  {
    InvAlways(b, parses, p);
    InvAlways(b, parses, p + 1);
    assert StepAt(b, p, parses) && JobOk(b.states[p + 1].db, id);
    UneditedStays(b, parses, p + 1, q, id);
    PassFacts(b, parses, q, i);
    var rows, before, after := b.events[q].rows, b.states[i].worker, b.states[i + 1].worker;
    var k :| 0 <= k < |rows| && rows[k].job.id == id;
    RegRunsRow(id, b.states[p + 1].db.jobs[id]);
    assert Placed(before, after, rows[k], b.events[i].stamps[k], parses);
    if UpToDate(before, rows[k]) { assert EntryOk(before, id) && EntryOk(after, id); }
    if parses(Expr(rows[k])) { assert after.entries[id].cronId in after.live && EntryOk(after, id); }
  }

  /** When the clocks agree, a pass leaves a row it read registered as it stands, if its
      expression parses, and registered in no other way. */
  lemma RowReachesCron(b: Behavior, parses: Parses, q: nat, i: nat, id: JobId)
    requires IsBehavior(b, parses) && Pass(b, q, i) && id in Ids(b.events[q].rows)
    requires forall k | 0 <= k < |b.events| :: ClocksAgree(b.states[k], b.events[k])
    ensures id in b.states[q].db.jobs
    ensures var row, live := b.states[q].db.jobs[id], b.states[i + 1].worker.live;
            && (forall c | c in live && live[c].job.id == id :: RunsRow(live[c], id, row))
            && (parses("CRON_TZ=" + row.timezone + " " + row.cronExpr) ==> InCron(b.states[i + 1].worker, id))
  {
    assert StepAt(b, q, parses);
    SnapshotStays(b, parses, q, i);
    SyncMatchesItsRows(b, parses, i);
    var rows := b.events[q].rows;
    var k :| 0 <= k < |rows| && rows[k].job.id == id;
    RegRunsRow(id, b.states[q].db.jobs[id]);
    OnlyReg(b.states[i + 1].worker, rows, k, parses);
  }

  lemma OnlyReg(w: Worker, rows: seq<DbJob>, k: nat, parses: Parses)
    requires k < |rows| && Distinct(rows) && Matches(w, rows, parses)
    ensures forall c | c in w.live && w.live[c].job.id == rows[k].job.id :: w.live[c] == Reg(rows[k])
    ensures parses(Expr(rows[k])) ==> InCron(w, rows[k].job.id)
  {
    forall c | c in w.live && w.live[c].job.id == rows[k].job.id
      ensures w.live[c] == Reg(rows[k])
    {
      var l :| 0 <= l < |rows| && parses(Expr(rows[l])) && w.live[c] == Reg(rows[l]);
      assert rows[l].job.id == rows[k].job.id;
    }
  }

  /** Once a job is edited, and not touched again before the query, the pass (when the
      clocks agree) leaves it registered with the edit's request, expression and zone, if
      that parses, and with nothing else. */
  lemma EditReachesCron(b: Behavior, parses: Parses, p: nat, q: nat, i: nat)
    requires IsBehavior(b, parses) && p < q && Pass(b, q, i) && b.events[p].EditJob? && b.events[p].id in Ids(b.events[q].rows)
    requires forall k | p < k < q :: !Edits(b.events[k], b.events[p].id)
    requires forall k | 0 <= k < |b.events| :: ClocksAgree(b.states[k], b.events[k])
    ensures b.events[p].id in b.states[p].db.jobs
    ensures var e, live := b.events[p], b.states[i + 1].worker.live;
            var policy := if e.policy.Some? then e.policy.value else b.states[p].db.jobs[e.id].policy;
            && (forall c | c in live && live[c].job.id == e.id ::
                  live[c].job.request == e.request && live[c].job.policy == policy && Names(live[c].expr, e.timezone, e.cronExpr))
            && (parses("CRON_TZ=" + e.timezone + " " + e.cronExpr) ==> InCron(b.states[i + 1].worker, e.id))
  {
    var id := b.events[p].id;
    InvAlways(b, parses, p);
    assert StepAt(b, p, parses) && JobOk(b.states[p].db, id);
    UneditedStays(b, parses, p + 1, q, id);
    RowReachesCron(b, parses, q, i, id);
  }

  /** A pass over one row the worker does not know. */
  lemma FirstRegistration(j: DbJob, stamp: Time, parses: Parses)
    requires parses(Expr(j))
    ensures Reconcile(IDLE, [j], [stamp], parses)
         == Worker(map[j.job.id := Entry(1, stamp, None)], map[1 := Reg(j)], 1, {}, 0)
  {
    LoneRow(IDLE, j, stamp, parses);
    DropNothing(IDLE, {j.job.id});
  }

  /** Job `id` runs other fields than its row's, and its stamp hides it. */
  ghost predicate Stale(s: State, id: JobId, c: CronId, reg: Registration) {
    && id in s.db.jobs && id in s.worker.entries && s.worker.entries[id].cronId == c
    && c in s.worker.live && s.worker.live[c] == reg && reg != Reg(ToDbJob(id, s.db.jobs[id]))
    && s.db.jobs[id].updatedAt <= s.worker.entries[id].scheduledAt
  }

  /** A pass, if this step is one, works from the current row of job `id`. */
  ghost predicate PassReads(s: State, e: Event, id: JobId) {
    e.Sync? && s.snapshot.Some? && id in s.db.jobs ==> ToDbJob(id, s.db.jobs[id]) in s.snapshot.value
  }

  lemma StalePass(s: State, e: Event, parses: Parses, id: JobId, c: CronId, reg: Registration)
    requires Inv(s, parses) && Enabled(s, e) && Stale(s, id, c, reg) && e.Sync? && PassReads(s, e, id)
    ensures Stale(Next(s, e, parses), id, c, reg)
  {
    var rows := s.snapshot.value;
    ReconcileEffect(s.worker, rows, e.stamps, parses);
    var k :| 0 <= k < |rows| && rows[k] == ToDbJob(id, s.db.jobs[id]);
    assert Placed(s.worker, Next(s, e, parses).worker, rows[k], e.stamps[k], parses);
    assert UpToDate(s.worker, rows[k]);
    assert EntryOk(s.worker, id) && LiveOk(s.worker, c, parses);
  }

  lemma StaleStep(s: State, e: Event, parses: Parses, id: JobId, c: CronId, reg: Registration)
    requires Inv(s, parses) && Enabled(s, e) && Stale(s, id, c, reg) && !Edits(e, id) && PassReads(s, e, id)
    ensures Stale(Next(s, e, parses), id, c, reg)
  {
    if e.Sync? {
      StalePass(s, e, parses, id, c, reg);
    } else {
      if EditsRows(e) {
        assert JobOk(s.db, id);
      } else {
        RunsLeaveRows(s, e, parses, id);
      }
    }
  }

  /** Such a registration stays through any number of passes that read the job's row, with
      whatever else happening, until the job itself is edited again. */
  lemma {:induction false} StaleForGood(b: Behavior, parses: Parses, id: JobId, c: CronId, reg: Registration, i: nat, j: nat)
    requires IsBehavior(b, parses) && i <= j <= |b.events| && Stale(b.states[i], id, c, reg)
    requires forall k | i <= k < j :: !Edits(b.events[k], id)
    requires forall k | i <= k < j :: PassReads(b.states[k], b.events[k], id)
    ensures Stale(b.states[j], id, c, reg)
    decreases j
  {
    if i < j {
      StaleForGood(b, parses, id, c, reg, i, j - 1);
      InvAlways(b, parses, j - 1);
      assert StepAt(b, j - 1, parses);
      StaleStep(b.states[j - 1], b.events[j - 1], parses, id, c, reg);
    }
  }

  /** A job edited between the query and its registration, at a later time than its last
      edit and an earlier one than the registration: stale from then on. */
  lemma EditDuringSyncIsLost(db: Tables, parses: Parses, id: JobId, request: Request) returns (b: Behavior)
    requires TablesOk(db) && (forall x | x in db.execs :: db.execs[x].status != Running)
    requires id in db.jobs && db.jobs[id].status == Active && db.jobs[id].request != request
    requires parses(Expr(ToDbJob(id, db.jobs[id])))
    ensures IsBehavior(b, parses) && b.states[0] == Init(db)
    ensures |b.events| == 3 && b.events[0].Query? && b.events[1].EditJob? && b.events[2].Sync?
    ensures b.events[1].id == id && b.events[1].request == request
    ensures db.jobs[id].updatedAt < b.events[1].now && b.events[2].stamps == [b.events[1].now + 1]
    ensures id in Last(b).db.jobs && Last(b).db.jobs[id].request == request
    ensures Stale(Last(b), id, 1, Reg(ToDbJob(id, db.jobs[id])))
  {
    var row := db.jobs[id];
    var now := row.updatedAt + 1;
    b := Behavior([Init(db)], []);
    b := Extend(b, Query([ToDbJob(id, row)]), parses);
    b := Extend(b, EditJob(id, request, row.cronExpr, row.timezone, None, now), parses);
    FirstRegistration(ToDbJob(id, row), now + 1, parses);
    b := Extend(b, Sync([now + 1]), parses);
  }

  lemma LoneRow(w: Worker, j: DbJob, stamp: Time, parses: Parses)
    requires w.entries.Keys <= {j.job.id}
    ensures Reconcile(w, [j], [stamp], parses) == Place(w, j, stamp, parses)
    ensures Ids([j]) == {j.job.id}
  {
    assert [j][..0] == [] && [stamp][..0] == [];
    assert [j][0].job.id in Ids([j]);
    DropNothing(w, w.entries.Keys - Ids([j]));
    assert PlaceAll(w, [], [], parses) == w;
  }

  // ---- idempotence over runs ----

  /** Step `k` writes back a ghost: a Replace callback of a job without an entry. */
  ghost predicate WritesGhost(b: Behavior, k: nat) {
    && k < |b.events| && k < |b.states|
    && b.events[k].Store? && At(b.states[k], b.events[k].t)
    && b.states[k].tasks[b.events[k].t].job.id !in b.states[k].worker.entries
  }

  ghost predicate HasGhost(w: Worker) {
    exists id :: id in w.entries && w.entries[id].scheduledAt == 0
  }

  lemma SettledStep(s: State, e: Event, parses: Parses, rows: seq<DbJob>)
    requires Inv(s, parses) && Enabled(s, e) && !e.Sync?
    ensures Settled(s.worker, rows, parses) && !(e.Store? && s.tasks[e.t].job.id !in s.worker.entries) ==>
              Settled(Next(s, e, parses).worker, rows, parses)
    ensures HasGhost(s.worker) || (e.Store? && s.tasks[e.t].job.id !in s.worker.entries) ==>
              HasGhost(Next(s, e, parses).worker)
  {
    var w, w' := s.worker, Next(s, e, parses).worker;
    if e.Store? && s.tasks[e.t].job.id !in w.entries {
      assert s.tasks[e.t].job.id in w'.entries;
    } else if HasGhost(w) {
      var id :| id in w.entries && w.entries[id].scheduledAt == 0;
      assert id in w'.entries && w'.entries[id].scheduledAt == 0;
    }
  }

  lemma {:induction false} SettledUntilGhost(b: Behavior, parses: Parses, i: nat, j: nat, rows: seq<DbJob>)
    requires IsBehavior(b, parses) && i <= j <= |b.events|
    requires forall k | i <= k < j :: !b.events[k].Sync?
    requires Settled(b.states[i].worker, rows, parses)
    ensures (forall k | i <= k < j :: !WritesGhost(b, k)) ==> Settled(b.states[j].worker, rows, parses)
    ensures (exists k :: i <= k < j && WritesGhost(b, k)) ==> HasGhost(b.states[j].worker)
    decreases j
  {
    if i < j {
      SettledUntilGhost(b, parses, i, j - 1, rows);
      InvAlways(b, parses, j - 1);
      assert StepAt(b, j - 1, parses);
      SettledStep(b.states[j - 1], b.events[j - 1], parses, rows);
      var s, e := b.states[j - 1], b.events[j - 1];
      assert WritesGhost(b, j - 1) <==> e.Store? && s.tasks[e.t].job.id !in s.worker.entries;
    }
  }

  ghost predicate SameRows(a: seq<DbJob>, b: seq<DbJob>) {
    && (forall k | 0 <= k < |a| :: a[k] in b)
    && (forall k | 0 <= k < |b| :: b[k] in a)
  }

  lemma SettledForSameRows(w: Worker, a: seq<DbJob>, b: seq<DbJob>, parses: Parses)
    requires Settled(w, a, parses) && SameRows(a, b)
    ensures Settled(w, b, parses)
  {
    forall id | id in w.entries
      ensures id in Ids(b)
    {
      assert id in Ids(a);
      var k :| 0 <= k < |a| && a[k].job.id == id;
      assert a[k] in b;
    }
    forall k | 0 <= k < |b|
      ensures UpToDate(w, b[k]) || (b[k].job.id !in w.entries && !parses(Expr(b[k])))
    {
      assert b[k] in a;
    }
  }

  /** Two successive passes over the same rows, the first with a clock not behind them:
      whatever runs start, finish or stamp last_run_at in between, the second changes
      nothing in the worker (no entry, cron ID or cancel function, and no run is
      cancelled) exactly when no late Replace callback has written back a ghost. */
  lemma SecondSyncIsSilentIffNoGhost(b: Behavior, parses: Parses, i: nat, j: nat)
    requires IsBehavior(b, parses) && i < j < |b.events| && b.events[i].Sync? && b.events[j].Sync?
    requires forall k | i < k < j :: !b.events[k].Sync?
    requires b.states[i].snapshot.Some? && |b.states[i].snapshot.value| == |b.events[i].stamps|
    requires forall k | 0 <= k < |b.events[i].stamps| :: b.states[i].snapshot.value[k].updatedAt <= b.events[i].stamps[k]
    requires b.states[j].snapshot.Some? && SameRows(b.states[i].snapshot.value, b.states[j].snapshot.value)
    ensures b.states[j + 1].worker == b.states[j].worker <==> forall k | i < k < j :: !WritesGhost(b, k)
  {
    InvAlways(b, parses, i);
    InvAlways(b, parses, j);
    assert StepAt(b, i, parses) && StepAt(b, j, parses);
    var rows, rows' := b.states[i].snapshot.value, b.states[j].snapshot.value;
    ReconcileSettles(b.states[i].worker, rows, b.events[i].stamps, parses);
    SettledUntilGhost(b, parses, i + 1, j, rows);
    UnchangedIffSettled(b.states[j].worker, rows', b.events[j].stamps, parses);
    if forall k | i < k < j :: !WritesGhost(b, k) {
      SettledForSameRows(b.states[j].worker, rows, rows', parses);
    }
  }

  // ---- a ghost does arise ----

  /** The one job of the tables, a Replace job. */
  ghost predicate LoneReplaceJob(db: Tables, id: JobId, parses: Parses) {
    && TablesOk(db) && (forall x | x in db.execs :: db.execs[x].status != Running)
    && db.jobs.Keys == {id} && db.jobs[id].status == Active && db.jobs[id].policy == Replace
    && parses(Expr(ToDbJob(id, db.jobs[id])))
  }

  function Fired(db: Tables, id: JobId, pc: Pc): Task
    requires id in db.jobs
  {
    Task(Tick, ToDbJob(id, db.jobs[id]).job, None, pc, None, 0, false, false)
  }

  /** Registered, and its callback under way. */
  lemma RegisteredAndFired(db: Tables, id: JobId, parses: Parses) returns (b: Behavior)
    requires LoneReplaceJob(db, id, parses)
    ensures IsBehavior(b, parses) && |b.events| == 3 && b.states[0] == Init(db)
    ensures var at := db.jobs[id].updatedAt;
            Last(b) == State(db, Worker(map[id := Entry(1, at, None)], map[1 := Reg(ToDbJob(id, db.jobs[id]))], 1, {}, 0), None, None,
                             map[0 := Fired(db, id, Begun)])
  {
    var j := ToDbJob(id, db.jobs[id]);
    b := Behavior([Init(db)], []);
    b := Extend(b, Query([j]), parses);
    FirstRegistration(j, j.updatedAt, parses);
    b := Extend(b, Sync([j.updatedAt]), parses);
    b := Extend(b, Fire(0, 1), parses);
    assert Last(b).tasks == map[0 := Fired(db, id, Begun)];
  }

  lemma DropLone(id: JobId, e: Entry, live: map<CronId, Registration>, lastId: CronId, nextCtx: CtxId, parses: Parses)
    requires live.Keys <= {e.cronId}
    ensures Reconcile(Worker(map[id := e], live, lastId, {}, nextCtx), [], [], parses)
         == Worker(map[], map[], lastId, if e.cancelFn.Some? then {e.cancelFn.value} else {}, nextCtx)
  {
    var w := Worker(map[id := e], live, lastId, {}, nextCtx);
    assert Ids([]) == {} && w.entries.Keys - {} == {id};
    assert CronIds(w, {id}) == {e.cronId};
    assert CancelFns(w, {id}) == if e.cancelFn.Some? then {e.cancelFn.value} else {};
    assert Drop(w, {id}).entries == map[] && Drop(w, {id}).live == map[];
  }

  /** Paused, and dropped by the next pass, before the callback takes its turn. */
  lemma DroppedBeforeItsTurn(db: Tables, id: JobId, parses: Parses) returns (b: Behavior)
    requires LoneReplaceJob(db, id, parses)
    ensures IsBehavior(b, parses) && |b.events| == 6 && b.states[0] == Init(db) && b.events[5] == Sync([])
    ensures b.states[5].snapshot == Some([])
    ensures Last(b) == State(SetJobStatus(db, id, Paused, db.jobs[id].updatedAt + 1), Worker(map[], map[], 1, {}, 0), None, None,
                             map[0 := Fired(db, id, Begun)])
  {
    b := RegisteredAndFired(db, id, parses);
    b := Extend(b, ChangeStatus(id, Paused, db.jobs[id].updatedAt + 1), parses);
    b := Extend(b, Query([]), parses);
    DropLone(id, Last(b).worker.entries[id], Last(b).worker.live, 1, 0, parses);
    b := Extend(b, Sync([]), parses);
  }

  /** The callback takes the mutex and finds no entry. */
  lemma LateTurn(db: Tables, id: JobId, parses: Parses) returns (b: Behavior)
    requires LoneReplaceJob(db, id, parses)
    ensures IsBehavior(b, parses) && |b.events| == 7 && b.states[0] == Init(db) && b.events[5] == Sync([]) && b.events[6] == Lock(0)
    ensures b.states[5].snapshot == Some([]) && Last(b).snapshot == None
    ensures Last(b).worker == Worker(map[], map[], 1, {}, 0) && Last(b).tasks == map[0 := Fired(db, id, Holding(NoEntry))]
  {
    b := DroppedBeforeItsTurn(db, id, parses);
    b := Extend(b, Lock(0), parses);
    assert Last(b).tasks == map[0 := Fired(db, id, Holding(NoEntry))];
  }

  lemma GhostWritten(db: Tables, id: JobId, parses: Parses) returns (b: Behavior)
    requires LoneReplaceJob(db, id, parses)
    ensures IsBehavior(b, parses) && |b.events| == 9 && b.states[0] == Init(db) && b.events[5] == Sync([])
    ensures b.states[5].snapshot == Some([])
    ensures b.events[6] == Lock(0) && b.events[7] == Flag(0) && b.events[8] == Store(0) && WritesGhost(b, 8)
    ensures Last(b).worker == Worker(map[id := Entry(0, 0, Some(0))], map[], 1, {}, 1)
    ensures Last(b).mu == None && Last(b).snapshot == None
  {
    b := LateTurn(db, id, parses);
    b := Extend(b, Flag(0), parses);
    b := Extend(b, Store(0), parses);
  }

  /** So idempotence does fail: between two passes over the same rows nothing is edited, a
      late callback writes back a ghost, and the second pass removes it and cancels the run
      the callback is about to start. */
  lemma GhostBreaksIdempotence(db: Tables, id: JobId, parses: Parses) returns (b: Behavior)
    requires LoneReplaceJob(db, id, parses)
    ensures IsBehavior(b, parses) && |b.events| == 11 && b.states[0] == Init(db) && b.events[5] == b.events[10] == Sync([])
    ensures b.states[5].snapshot == b.states[10].snapshot == Some([])
    ensures forall k | 5 < k < 10 :: !b.events[k].Sync? && !EditsRows(b.events[k])
    ensures WritesGhost(b, 8) && b.states[10].worker.entries == map[id := Entry(0, 0, Some(0))]
    ensures b.states[11].worker.entries == map[] && 0 in b.states[11].worker.cancelled - b.states[10].worker.cancelled
  {
    b := GhostWritten(db, id, parses);
    b := Extend(b, Query([]), parses);
    DropLone(id, Entry(0, 0, Some(0)), map[], 1, 1, parses);
    b := Extend(b, Sync([]), parses);
  }

  /** Two queries with no row edited from the first on and no row lost return the same rows. */
  lemma QueriesAgree(b: Behavior, parses: Parses, q: nat, r: nat)
    requires IsBehavior(b, parses) && q < r < |b.events| && b.events[q].Query? && b.events[r].Query?
    requires forall k | q <= k < r :: !EditsRows(b.events[k])
    requires Complete(b.states[q].db, b.events[q].rows) && Complete(b.states[r].db, b.events[r].rows)
    ensures SameRows(b.events[q].rows, b.events[r].rows)
  {
    assert StepAt(b, q, parses) && StepAt(b, r, parses);
    var a, c := b.events[q].rows, b.events[r].rows;
    forall k | 0 <= k < |a|
      ensures a[k] in c
    {
      RowsStay(b, parses, q, r, a[k].job.id);
      assert a[k].job.id in Ids(c);
      var l :| 0 <= l < |c| && c[l].job.id == a[k].job.id;
      assert c[l] == a[k];
    }
    forall k | 0 <= k < |c|
      ensures c[k] in a
    {
      RowsStay(b, parses, q, r, c[k].job.id);
      assert c[k].job.id in Ids(a);
      var l :| 0 <= l < |a| && a[l].job.id == c[k].job.id;
      assert a[l] == c[k];
    }
  }
}
