/** The worker's in-memory scheduler: the entries map, robfig/cron's table of live
    registrations and the contexts made by the Replace branch.

    `Reconcile` is what one pass of sync does to that memory. The class at the end is
    the scheduler itself, updated in place and proved against these functions. */
module Scheduler {
  import opened Domain

  /** A ghost entry is the zero value a late Replace callback writes back: no cron ID
      and the zero time. */
  datatype Entry = Entry(cronId: CronId, scheduledAt: Time, cancelFn: Option<CtxId>)

  const NoEntry := Entry(0, 0, None)

  datatype Registration = Registration(expr: string, job: ExecJob)

  datatype Worker = Worker(entries: map<JobId, Entry>, live: map<CronId, Registration>, lastId: CronId,
                           cancelled: set<CtxId>, nextCtx: CtxId)

  const IDLE := Worker(map[], map[], 0, {}, 0)

  /** Which cron expressions the cron library accepts. */
  type Parses = string -> bool

  function Expr(j: DbJob): string {
    "CRON_TZ=" + j.timezone + " " + j.cronExpr
  }

  /** The text starts with CRON_TZ=, the zone, a space and the five fields. */
  predicate Names(expr: string, timezone: string, fields: string) {
    && |expr| == 9 + |timezone| + |fields|
    && expr[..8] == "CRON_TZ=" && expr[8..8 + |timezone|] == timezone
    && expr[8 + |timezone|] == ' ' && expr[9 + |timezone|..] == fields
  }

  /** The zone and the fields as the cron library cuts them out: at the first space. */
  function FirstSpace(s: string): (k: nat)
    ensures k <= |s| && ' ' !in s[..k] && (k < |s| ==> s[k] == ' ')
  {
    if s == "" || s[0] == ' ' then 0
    else
      var k := FirstSpace(s[1..]);
      assert s[..k + 1] == [s[0]] + s[1..][..k];
      k + 1
  }

  function Zone(expr: string): string
    requires |expr| >= 8
  {
    expr[8..8 + FirstSpace(expr[8..])]
  }

  function Rest(expr: string): string
    requires |expr| >= 8
  {
    var rest := expr[8..];
    var k := FirstSpace(rest);
    if k < |rest| then rest[k + 1..] else ""
  }

  /** A registered expression names its row's zone and fields, in that order, and is read
      back as them exactly when the zone has no space in it. */
  lemma ExprReadsBack(j: DbJob)
    ensures Names(Expr(j), j.timezone, j.cronExpr)
    ensures Zone(Expr(j)) == j.timezone && Rest(Expr(j)) == j.cronExpr <==> ' ' !in j.timezone
  {
    var expr, z := Expr(j), j.timezone;
    var rest := expr[8..];
    assert rest == z + " " + j.cronExpr;
    assert rest[|z|] == ' ' && rest[|z| + 1..] == j.cronExpr;
    if ' ' !in z {
      FirstSpaceIs(rest, |z|);
    } else {
      assert Zone(expr) == rest[..FirstSpace(rest)];
    }
  }

  lemma {:induction false} FirstSpaceIs(s: string, n: nat)
    requires n < |s| && s[n] == ' ' && forall k | 0 <= k < n :: s[k] != ' '
    ensures FirstSpace(s) == n
  {
    if n > 0 { FirstSpaceIs(s[1..], n - 1); }
  }

  function Reg(j: DbJob): Registration {
    Registration(Expr(j), j.job)
  }

  function Lookup(entries: map<JobId, Entry>, id: JobId): Entry {
    if id in entries then entries[id] else NoEntry
  }

  function Ids(jobs: seq<DbJob>): set<JobId> {
    set k | 0 <= k < |jobs| :: jobs[k].job.id
  }

  predicate Distinct(jobs: seq<DbJob>) {
    forall k, l | 0 <= k < l < |jobs| :: jobs[k].job.id != jobs[l].job.id
  }

  ghost predicate Dated(jobs: seq<DbJob>) {
    forall k | 0 <= k < |jobs| :: 0 < jobs[k].updatedAt
  }

  // ---- sync, on values ----

  function CronIds(w: Worker, ids: set<JobId>): set<CronId> {
    set id | id in w.entries && id in ids :: w.entries[id].cronId
  }

  function CancelFns(w: Worker, ids: set<JobId>): set<CtxId> {
    set id | id in w.entries && id in ids && w.entries[id].cancelFn.Some? :: w.entries[id].cancelFn.value
  }

  /** Cancel, unregister and forget the entries of `ids`. */
  function Drop(w: Worker, ids: set<JobId>): Worker {
    w.(entries := map id | id in w.entries && id !in ids :: w.entries[id],
       live := map c | c in w.live && c !in CronIds(w, ids) :: w.live[c],
       cancelled := w.cancelled + CancelFns(w, ids))
  }

  function Register(w: Worker, j: DbJob, now: Time): Worker {
    var id := w.lastId + 1;
    w.(entries := w.entries[j.job.id := Entry(id, now, None)], live := w.live[id := Reg(j)], lastId := id)
  }

  predicate UpToDate(w: Worker, j: DbJob) {
    j.job.id in w.entries && !(w.entries[j.job.id].scheduledAt < j.updatedAt)
  }

  /** The body of sync's second loop; `now` is the clock reading if it registers. */
  function Place(w: Worker, j: DbJob, now: Time, parses: Parses): Worker {
    if UpToDate(w, j) then w
    else
      var cleared := Drop(w, {j.job.id});
      if parses(Expr(j)) then Register(cleared, j, now) else cleared
  }

  function PlaceAll(w: Worker, jobs: seq<DbJob>, stamps: seq<Time>, parses: Parses): Worker
    requires |stamps| == |jobs|
  {
    if |jobs| == 0 then w
    else
      var n := |jobs| - 1;
      Place(PlaceAll(w, jobs[..n], stamps[..n], parses), jobs[n], stamps[n], parses)
  }

  function Reconcile(w: Worker, jobs: seq<DbJob>, stamps: seq<Time>, parses: Parses): Worker
    requires |stamps| == |jobs|
  {
    PlaceAll(Drop(w, w.entries.Keys - Ids(jobs)), jobs, stamps, parses)
  }

  // ---- the Replace callback's locked section, on values ----

  function CancelStored(w: Worker, seen: Entry): Worker {
    if seen.cancelFn.Some? then w.(cancelled := w.cancelled + {seen.cancelFn.value}) else w
  }

  function StoreContext(w: Worker, id: JobId, seen: Entry): Worker {
    w.(entries := w.entries[id := seen.(cancelFn := Some(w.nextCtx))], nextCtx := w.nextCtx + 1)
  }

  // ---- no leaked or doubled registrations ----

  ghost predicate EntryOk(w: Worker, id: JobId)
    requires id in w.entries
  {
    var e := w.entries[id];
    && (e.cronId == 0 ==> e.scheduledAt == 0)
    && (e.cronId != 0 ==> e.cronId in w.live && w.live[e.cronId].job.id == id)
    && (e.cancelFn.Some? ==> e.cancelFn.value < w.nextCtx)
  }

  ghost predicate LiveOk(w: Worker, c: CronId, parses: Parses)
    requires c in w.live
  {
    var reg := w.live[c];
    && 0 < c <= w.lastId
    && parses(reg.expr)
    && reg.job.id in w.entries && w.entries[reg.job.id].cronId == c
  }

  /** Entries and live registrations point at each other: a bijection between the
      entries that are not ghosts and cron's table. */
  ghost predicate Linked(w: Worker, parses: Parses) {
    && (forall id | id in w.entries :: EntryOk(w, id))
    && (forall c | c in w.live :: LiveOk(w, c, parses))
  }

  lemma DropLinked(w: Worker, ids: set<JobId>, parses: Parses)
    requires Linked(w, parses)
    ensures Linked(Drop(w, ids), parses)
    ensures forall id | id in w.entries && id !in ids && w.entries[id].cronId != 0 ::
              w.entries[id].cronId in Drop(w, ids).live
  {
    var d := Drop(w, ids);
    forall id | id in d.entries
      ensures EntryOk(d, id) && (d.entries[id].cronId != 0 ==> d.entries[id].cronId in d.live)
    {
      assert EntryOk(w, id);
      var c := w.entries[id].cronId;
      forall other | other in w.entries && other in ids
        ensures w.entries[other].cronId != c || c == 0
      {
        assert EntryOk(w, other);
      }
    }
    forall c | c in d.live
      ensures LiveOk(d, c, parses)
    {
      assert LiveOk(w, c, parses);
    }
  }

  lemma RegisterLinked(w: Worker, j: DbJob, now: Time, parses: Parses)
    requires Linked(w, parses) && j.job.id !in w.entries && parses(Expr(j))
    ensures Linked(Register(w, j, now), parses)
  {
    var r := Register(w, j, now);
    forall c | c in r.live
      ensures LiveOk(r, c, parses)
    {
      if c in w.live { assert LiveOk(w, c, parses); }
    }
    forall id | id in r.entries
      ensures EntryOk(r, id)
    {
      if id != j.job.id {
        assert EntryOk(w, id);
        if w.entries[id].cronId != 0 { assert LiveOk(w, w.entries[id].cronId, parses); }
      }
    }
  }

  lemma PlaceLinked(w: Worker, j: DbJob, now: Time, parses: Parses)
    requires Linked(w, parses)
    ensures Linked(Place(w, j, now, parses), parses)
  {
    if !UpToDate(w, j) {
      DropLinked(w, {j.job.id}, parses);
      if parses(Expr(j)) {
        RegisterLinked(Drop(w, {j.job.id}), j, now, parses);
      }
    }
  }

  lemma {:induction false} PlaceAllLinked(w: Worker, jobs: seq<DbJob>, stamps: seq<Time>, parses: Parses)
    requires |stamps| == |jobs| && Linked(w, parses)
    ensures Linked(PlaceAll(w, jobs, stamps, parses), parses)
  {
    if |jobs| != 0 {
      var n := |jobs| - 1;
      PlaceAllLinked(w, jobs[..n], stamps[..n], parses);
      PlaceLinked(PlaceAll(w, jobs[..n], stamps[..n], parses), jobs[n], stamps[n], parses);
    }
  }

  /** Whatever the entries were (ghosts included) and in whatever order the rows come,
      a pass leaves entries and registrations in bijection. */
  lemma ReconcileLinked(w: Worker, jobs: seq<DbJob>, stamps: seq<Time>, parses: Parses)
    requires |stamps| == |jobs| && Linked(w, parses)
    ensures Linked(Reconcile(w, jobs, stamps, parses), parses)
  {
    DropLinked(w, w.entries.Keys - Ids(jobs), parses);
    PlaceAllLinked(Drop(w, w.entries.Keys - Ids(jobs)), jobs, stamps, parses);
  }

  /** The late callback may leave a ghost, never a dangling or doubled registration. */
  lemma StoreLinked(w: Worker, id: JobId, parses: Parses)
    requires Linked(w, parses)
    ensures Linked(CancelStored(w, Lookup(w.entries, id)), parses)
    ensures Linked(StoreContext(w, id, Lookup(w.entries, id)), parses)
  {
    var s := StoreContext(w, id, Lookup(w.entries, id));
    var k := CancelStored(w, Lookup(w.entries, id));
    forall i | i in w.entries ensures EntryOk(k, i) && EntryOk(s, i) { assert EntryOk(w, i); }
    forall c | c in w.live ensures LiveOk(k, c, parses) && LiveOk(s, c, parses) { assert LiveOk(w, c, parses); }
  }

  // ---- what a pass leaves for each job ----

  /** `k`-th row after its turn, compared with the worker before the second loop. */
  ghost predicate Placed(before: Worker, after: Worker, j: DbJob, stamp: Time, parses: Parses) {
    var id := j.job.id;
    if UpToDate(before, j) then
      id in after.entries && after.entries[id] == before.entries[id] && SameReg(before, after, id)
    else if parses(Expr(j)) then
      && id in after.entries && after.entries[id].scheduledAt == stamp && after.entries[id].cancelFn == None
      && after.entries[id].cronId in after.live && after.live[after.entries[id].cronId] == Reg(j)
    else
      id !in after.entries
  }

  ghost predicate SameReg(before: Worker, after: Worker, id: JobId)
    requires id in before.entries
  {
    var c := before.entries[id].cronId;
    c != 0 ==> c in before.live && c in after.live && after.live[c] == before.live[c]
  }

  ghost predicate Untouched(before: Worker, after: Worker, id: JobId) {
    && (id in after.entries <==> id in before.entries)
    && (id in before.entries ==> after.entries[id] == before.entries[id] && SameReg(before, after, id))
  }

  lemma PlaceEffect(w: Worker, j: DbJob, now: Time, parses: Parses)
    requires Linked(w, parses)
    ensures Placed(w, Place(w, j, now, parses), j, now, parses)
    ensures forall id | id != j.job.id :: Untouched(w, Place(w, j, now, parses), id)
  {
    var after := Place(w, j, now, parses);
    DropLinked(w, {j.job.id}, parses);
    forall id | id != j.job.id
      ensures Untouched(w, after, id)
    {
      if id in w.entries {
        assert EntryOk(w, id);
        if w.entries[id].cronId != 0 { assert LiveOk(w, w.entries[id].cronId, parses); }
      }
    }
    if j.job.id in w.entries { assert EntryOk(w, j.job.id); }
  }

  lemma NotEarlier(jobs: seq<DbJob>, n: nat)
    requires Distinct(jobs) && n < |jobs|
    ensures jobs[n].job.id !in Ids(jobs[..n])
  {
    forall k | 0 <= k < n ensures jobs[..n][k].job.id != jobs[n].job.id {}
  }

  lemma {:induction false} PlaceAllEffect(w: Worker, jobs: seq<DbJob>, stamps: seq<Time>, parses: Parses)
    requires |stamps| == |jobs| && Linked(w, parses) && Distinct(jobs)
    ensures forall k | 0 <= k < |jobs| :: Placed(w, PlaceAll(w, jobs, stamps, parses), jobs[k], stamps[k], parses)
    ensures forall id | id !in Ids(jobs) :: Untouched(w, PlaceAll(w, jobs, stamps, parses), id)
  {
    if |jobs| == 0 {
      forall id ensures Untouched(w, w, id) { if id in w.entries { assert EntryOk(w, id); } }
    } else {
      var n := |jobs| - 1;
      var mid := PlaceAll(w, jobs[..n], stamps[..n], parses);
      var after := PlaceAll(w, jobs, stamps, parses);
      PlaceAllEffect(w, jobs[..n], stamps[..n], parses);
      PlaceAllLinked(w, jobs[..n], stamps[..n], parses);
      PlaceEffect(mid, jobs[n], stamps[n], parses);
      forall id | id !in Ids(jobs)
        ensures Untouched(w, after, id)
      {
        forall k | 0 <= k < n ensures jobs[..n][k].job.id != id { assert jobs[k].job.id in Ids(jobs); }
        assert id != jobs[n].job.id;
        assert Untouched(w, mid, id) && Untouched(mid, after, id);
      }
      forall k | 0 <= k < |jobs|
        ensures Placed(w, after, jobs[k], stamps[k], parses)
      {
        if k < n {
          assert Placed(w, mid, jobs[..n][k], stamps[..n][k], parses);
          assert Untouched(mid, after, jobs[k].job.id);
        } else {
          NotEarlier(jobs, n);
          assert Untouched(w, mid, jobs[n].job.id);
        }
      }
    }
  }

  /** One pass, entry by entry, against the worker it started from. */
  lemma ReconcileEffect(w: Worker, jobs: seq<DbJob>, stamps: seq<Time>, parses: Parses)
    requires |stamps| == |jobs| && Linked(w, parses) && Distinct(jobs)
    ensures Reconcile(w, jobs, stamps, parses).entries.Keys <= Ids(jobs)
    ensures forall k | 0 <= k < |jobs| :: Placed(w, Reconcile(w, jobs, stamps, parses), jobs[k], stamps[k], parses)
  {
    var gone := w.entries.Keys - Ids(jobs);
    var d := Drop(w, gone);
    var after := Reconcile(w, jobs, stamps, parses);
    DropLinked(w, gone, parses);
    PlaceAllEffect(d, jobs, stamps, parses);
    forall id | id in after.entries
      ensures id in Ids(jobs)
    {
      assert id !in Ids(jobs) ==> Untouched(d, after, id);
    }
    forall k | 0 <= k < |jobs|
      ensures Placed(w, after, jobs[k], stamps[k], parses)
    {
      assert Placed(d, after, jobs[k], stamps[k], parses);
      assert jobs[k].job.id in Ids(jobs);
      if jobs[k].job.id in w.entries { assert EntryOk(w, jobs[k].job.id); }
    }
  }

  // ---- contexts ----

  /** What a pass may do to contexts: an entry that disappears or is replaced has its
      context cancelled, no other context is, and no new one is made. */
  ghost predicate CarriesContexts(w: Worker, after: Worker) {
    && after.nextCtx == w.nextCtx
    && w.cancelled <= after.cancelled
    && (forall id | id in w.entries :: KeptOrCancelled(w, after, id))
    && (forall id | id in after.entries && after.entries[id].cancelFn.Some? ::
          id in w.entries && w.entries[id].cancelFn == after.entries[id].cancelFn)
    && (forall c | c in after.cancelled :: c in w.cancelled || exists id :: Dropped(w, after, id, c))
  }

  ghost predicate KeptOrCancelled(w: Worker, after: Worker, id: JobId)
    requires id in w.entries
  {
    || (id in after.entries && after.entries[id] == w.entries[id])
    || (w.entries[id].cancelFn.Some? ==> w.entries[id].cancelFn.value in after.cancelled)
  }

  /** The entry of `id`, holding context `c`, was removed or rescheduled. */
  ghost predicate Dropped(w: Worker, after: Worker, id: JobId, c: CtxId) {
    && id in w.entries && w.entries[id].cancelFn == Some(c)
    && (id in after.entries ==> after.entries[id].cancelFn == None)
  }

  lemma DropCarries(w: Worker, ids: set<JobId>)
    ensures CarriesContexts(w, Drop(w, ids))
  {
    var d := Drop(w, ids);
    forall c | c in d.cancelled && c !in w.cancelled
      ensures exists id :: Dropped(w, d, id, c)
    {
      var id :| id in w.entries && id in ids && w.entries[id].cancelFn.Some? && w.entries[id].cancelFn.value == c;
      assert Dropped(w, d, id, c);
    }
  }

  lemma PlaceCarries(w: Worker, j: DbJob, now: Time, parses: Parses)
    ensures CarriesContexts(w, Place(w, j, now, parses))
  {
    var d := Drop(w, {j.job.id});
    var after := Place(w, j, now, parses);
    DropCarries(w, {j.job.id});
    if !UpToDate(w, j) {
      forall c | c in after.cancelled && c !in w.cancelled
        ensures exists id :: Dropped(w, after, id, c)
      {
        var id :| Dropped(w, d, id, c);
        assert Dropped(w, after, id, c);
      }
      forall id | id in w.entries ensures KeptOrCancelled(w, after, id) { assert KeptOrCancelled(w, d, id); }
    }
  }

  lemma CarriesCompose(w: Worker, mid: Worker, after: Worker)
    requires CarriesContexts(w, mid) && CarriesContexts(mid, after)
    ensures CarriesContexts(w, after)
  {
    forall id | id in w.entries
      ensures KeptOrCancelled(w, after, id)
    {
      assert KeptOrCancelled(w, mid, id);
      if id in mid.entries { assert KeptOrCancelled(mid, after, id); }
    }
    forall c | c in after.cancelled && c !in w.cancelled
      ensures exists id :: Dropped(w, after, id, c)
    {
      if c in mid.cancelled {
        var id :| Dropped(w, mid, id, c);
        assert Dropped(w, after, id, c);
      } else {
        var id :| Dropped(mid, after, id, c);
        assert Dropped(w, after, id, c);
      }
    }
  }

  lemma {:induction false} PlaceAllCarries(w: Worker, jobs: seq<DbJob>, stamps: seq<Time>, parses: Parses)
    requires |stamps| == |jobs|
    ensures CarriesContexts(w, PlaceAll(w, jobs, stamps, parses))
  {
    if |jobs| == 0 {
      forall id | id in w.entries ensures KeptOrCancelled(w, w, id) {}
    } else {
      var n := |jobs| - 1;
      var mid := PlaceAll(w, jobs[..n], stamps[..n], parses);
      PlaceAllCarries(w, jobs[..n], stamps[..n], parses);
      PlaceCarries(mid, jobs[n], stamps[n], parses);
      CarriesCompose(w, mid, PlaceAll(w, jobs, stamps, parses));
    }
  }

  lemma ReconcileCarries(w: Worker, jobs: seq<DbJob>, stamps: seq<Time>, parses: Parses)
    requires |stamps| == |jobs|
    ensures CarriesContexts(w, Reconcile(w, jobs, stamps, parses))
  {
    var gone := w.entries.Keys - Ids(jobs);
    DropCarries(w, gone);
    PlaceAllCarries(Drop(w, gone), jobs, stamps, parses);
    CarriesCompose(w, Drop(w, gone), Reconcile(w, jobs, stamps, parses));
  }

  /** Every registration in cron after a pass was there before, or is that of a row. */
  ghost predicate Sourced(w: Worker, after: Worker, jobs: seq<DbJob>, c: CronId)
    requires c in after.live
  {
    (c in w.live && after.live[c] == w.live[c]) || exists k :: 0 <= k < |jobs| && after.live[c] == Reg(jobs[k])
  }

  lemma {:induction false} PlaceAllSources(w: Worker, jobs: seq<DbJob>, stamps: seq<Time>, parses: Parses)
    requires |stamps| == |jobs|
    ensures forall c | c in PlaceAll(w, jobs, stamps, parses).live :: Sourced(w, PlaceAll(w, jobs, stamps, parses), jobs, c)
  {
    if |jobs| != 0 {
      var n := |jobs| - 1;
      var mid := PlaceAll(w, jobs[..n], stamps[..n], parses);
      var after := PlaceAll(w, jobs, stamps, parses);
      PlaceAllSources(w, jobs[..n], stamps[..n], parses);
      forall c | c in after.live
        ensures Sourced(w, after, jobs, c)
      {
        if c in mid.live && after.live[c] == mid.live[c] {
          assert Sourced(w, mid, jobs[..n], c);
          if !(c in w.live && mid.live[c] == w.live[c]) {
            var k :| 0 <= k < n && mid.live[c] == Reg(jobs[..n][k]);
            assert after.live[c] == Reg(jobs[k]);
          }
        } else {
          assert after.live[c] == Reg(jobs[n]);
        }
      }
    }
  }

  lemma ReconcileSources(w: Worker, jobs: seq<DbJob>, stamps: seq<Time>, parses: Parses)
    requires |stamps| == |jobs|
    ensures forall c | c in Reconcile(w, jobs, stamps, parses).live ::
              Sourced(w, Reconcile(w, jobs, stamps, parses), jobs, c)
  {
    var d := Drop(w, w.entries.Keys - Ids(jobs));
    PlaceAllSources(d, jobs, stamps, parses);
    forall c | c in Reconcile(w, jobs, stamps, parses).live
      ensures Sourced(w, Reconcile(w, jobs, stamps, parses), jobs, c)
    {
      assert Sourced(d, Reconcile(w, jobs, stamps, parses), jobs, c);
    }
  }

  // ---- reconcile refinement ----

  /** The simple specification of a pass: one registration per row whose expression
      parses, running that row's fields, and nothing else. */
  ghost predicate Matches(w: Worker, jobs: seq<DbJob>, parses: Parses) {
    && (forall c | c in w.live :: exists k :: 0 <= k < |jobs| && parses(Expr(jobs[k])) && w.live[c] == Reg(jobs[k]))
    && (forall k | 0 <= k < |jobs| && parses(Expr(jobs[k])) :: exists c :: c in w.live && w.live[c] == Reg(jobs[k]))
    && (forall c, d | c in w.live && d in w.live && w.live[c].job.id == w.live[d].job.id :: c == d)
  }

  /** The registration a pass would keep already runs the row's current fields. */
  ghost predicate KeptIsCurrent(w: Worker, j: DbJob) {
    UpToDate(w, j) ==>
      var c := w.entries[j.job.id].cronId;
      c in w.live && w.live[c] == Reg(j)
  }

  /** A pass meets its specification exactly when every registration it decides to
      keep is current: its only possible fault is trusting a stamp. */
  lemma ReconcileRefines(w: Worker, jobs: seq<DbJob>, stamps: seq<Time>, parses: Parses)
    requires |stamps| == |jobs| && Linked(w, parses) && Distinct(jobs) && Dated(jobs)
    ensures Matches(Reconcile(w, jobs, stamps, parses), jobs, parses)
       <==> forall k | 0 <= k < |jobs| :: KeptIsCurrent(w, jobs[k])
  {
    var after := Reconcile(w, jobs, stamps, parses);
    ReconcileLinked(w, jobs, stamps, parses);
    ReconcileEffect(w, jobs, stamps, parses);
    if forall k | 0 <= k < |jobs| :: KeptIsCurrent(w, jobs[k]) {
      CurrentThenMatches(w, jobs, stamps, parses);
    }
    if Matches(after, jobs, parses) {
      forall k | 0 <= k < |jobs|
        ensures KeptIsCurrent(w, jobs[k])
      {
        assert Placed(w, after, jobs[k], stamps[k], parses);
        if UpToDate(w, jobs[k]) {
          var id := jobs[k].job.id;
          assert EntryOk(w, id);
          var c := w.entries[id].cronId;
          assert EntryOk(after, id) && c in after.live && after.live[c] == w.live[c];
          var l :| 0 <= l < |jobs| && parses(Expr(jobs[l])) && after.live[c] == Reg(jobs[l]);
          assert jobs[l].job.id == id;
          assert k == l;
        }
      }
    }
  }

  lemma CurrentThenMatches(w: Worker, jobs: seq<DbJob>, stamps: seq<Time>, parses: Parses)
    requires |stamps| == |jobs| && Linked(w, parses) && Distinct(jobs)
    requires forall k | 0 <= k < |jobs| :: KeptIsCurrent(w, jobs[k])
    ensures Matches(Reconcile(w, jobs, stamps, parses), jobs, parses)
  {
    var after := Reconcile(w, jobs, stamps, parses);
    ReconcileLinked(w, jobs, stamps, parses);
    ReconcileEffect(w, jobs, stamps, parses);
    forall c | c in after.live
      ensures exists k :: 0 <= k < |jobs| && parses(Expr(jobs[k])) && after.live[c] == Reg(jobs[k])
    {
      assert LiveOk(after, c, parses);
      var id := after.live[c].job.id;
      assert id in Ids(jobs);
      var k :| 0 <= k < |jobs| && jobs[k].job.id == id;
      assert Placed(w, after, jobs[k], stamps[k], parses) && KeptIsCurrent(w, jobs[k]);
      if UpToDate(w, jobs[k]) { assert LiveOk(w, c, parses); }
      assert after.live[c] == Reg(jobs[k]);
    }
    forall k | 0 <= k < |jobs| && parses(Expr(jobs[k]))
      ensures exists c :: c in after.live && after.live[c] == Reg(jobs[k])
    {
      assert Placed(w, after, jobs[k], stamps[k], parses) && KeptIsCurrent(w, jobs[k]);
      if UpToDate(w, jobs[k]) { assert LiveOk(w, w.entries[jobs[k].job.id].cronId, parses); }
      assert after.entries[jobs[k].job.id].cronId in after.live;
    }
    forall c, d | c in after.live && d in after.live && after.live[c].job.id == after.live[d].job.id
      ensures c == d
    {
      assert LiveOk(after, c, parses) && LiveOk(after, d, parses);
    }
  }

  /** No ghost outlives a pass. */
  lemma NoGhostAfterReconcile(w: Worker, jobs: seq<DbJob>, stamps: seq<Time>, parses: Parses)
    requires |stamps| == |jobs| && Linked(w, parses) && Distinct(jobs) && Dated(jobs)
    ensures forall id | id in Reconcile(w, jobs, stamps, parses).entries ::
              Reconcile(w, jobs, stamps, parses).entries[id].cronId in Reconcile(w, jobs, stamps, parses).live
  {
    var after := Reconcile(w, jobs, stamps, parses);
    ReconcileEffect(w, jobs, stamps, parses);
    forall id | id in after.entries
      ensures after.entries[id].cronId in after.live
    {
      assert id in Ids(jobs);
      var k :| 0 <= k < |jobs| && jobs[k].job.id == id;
      assert Placed(w, after, jobs[k], stamps[k], parses);
      if UpToDate(w, jobs[k]) { assert EntryOk(w, id); }
    }
  }

  // ---- idempotence ----

  /** Nothing for a pass to do: no entry without a row, no entry older than its row,
      no missing entry whose expression would now parse. */
  ghost predicate Settled(w: Worker, jobs: seq<DbJob>, parses: Parses) {
    && w.entries.Keys <= Ids(jobs)
    && forall k | 0 <= k < |jobs| ::
         UpToDate(w, jobs[k]) || (jobs[k].job.id !in w.entries && !parses(Expr(jobs[k])))
  }

  lemma {:induction false} PlaceAllSettled(w: Worker, jobs: seq<DbJob>, stamps: seq<Time>, parses: Parses)
    requires |stamps| == |jobs|
    requires forall k | 0 <= k < |jobs| ::
               UpToDate(w, jobs[k]) || (jobs[k].job.id !in w.entries && !parses(Expr(jobs[k])))
    ensures PlaceAll(w, jobs, stamps, parses) == w
  {
    if |jobs| != 0 {
      var n := |jobs| - 1;
      forall k | 0 <= k < n
        ensures UpToDate(w, jobs[..n][k]) || (jobs[..n][k].job.id !in w.entries && !parses(Expr(jobs[..n][k])))
      {
        assert jobs[..n][k] == jobs[k];
      }
      PlaceAllSettled(w, jobs[..n], stamps[..n], parses);
      if !UpToDate(w, jobs[n]) { DropNothing(w, {jobs[n].job.id}); }
    }
  }

  lemma DropNothing(w: Worker, ids: set<JobId>)
    requires w.entries.Keys !! ids
    ensures Drop(w, ids) == w
  {
    assert CronIds(w, ids) == {} && CancelFns(w, ids) == {};
    assert Drop(w, ids).entries == w.entries && Drop(w, ids).live == w.live;
  }

  lemma {:induction false} PlaceAllCounts(w: Worker, jobs: seq<DbJob>, stamps: seq<Time>, parses: Parses)
    requires |stamps| == |jobs|
    ensures w.lastId <= PlaceAll(w, jobs, stamps, parses).lastId
  {
    if |jobs| != 0 {
      var n := |jobs| - 1;
      PlaceAllCounts(w, jobs[..n], stamps[..n], parses);
    }
  }

  /** A pass changes nothing in the worker (no entry, no cron ID, no cancel function,
      no run cancelled) exactly when the worker is settled. */
  lemma UnchangedIffSettled(w: Worker, jobs: seq<DbJob>, stamps: seq<Time>, parses: Parses)
    requires |stamps| == |jobs| && Linked(w, parses) && Distinct(jobs) && Dated(jobs)
    ensures Reconcile(w, jobs, stamps, parses) == w <==> Settled(w, jobs, parses)
  {
    var after := Reconcile(w, jobs, stamps, parses);
    if Settled(w, jobs, parses) {
      DropNothing(w, w.entries.Keys - Ids(jobs));
      PlaceAllSettled(w, jobs, stamps, parses);
    }
    if after == w {
      ReconcileEffect(w, jobs, stamps, parses);
      forall k | 0 <= k < |jobs|
        ensures UpToDate(w, jobs[k]) || (jobs[k].job.id !in w.entries && !parses(Expr(jobs[k])))
      {
        assert Placed(w, after, jobs[k], stamps[k], parses);
        if !UpToDate(w, jobs[k]) && parses(Expr(jobs[k])) { ReplacedIsNew(w, jobs, stamps, parses, k); }
      }
    }
  }

  /** A row that is placed anew gets a cron ID the worker has never used. */
  lemma {:induction false} ReplacedIsNew(w: Worker, jobs: seq<DbJob>, stamps: seq<Time>, parses: Parses, k: nat)
    requires |stamps| == |jobs| && Linked(w, parses) && Distinct(jobs) && k < |jobs|
    requires !UpToDate(w, jobs[k]) && parses(Expr(jobs[k]))
    ensures Reconcile(w, jobs, stamps, parses).lastId > w.lastId
  {
    var d := Drop(w, w.entries.Keys - Ids(jobs));
    DropLinked(w, w.entries.Keys - Ids(jobs), parses);
    var mid := PlaceAll(d, jobs[..k], stamps[..k], parses);
    PlaceAllCounts(d, jobs[..k], stamps[..k], parses);
    assert Distinct(jobs[..k]);
    PlaceAllEffect(d, jobs[..k], stamps[..k], parses);
    NotEarlier(jobs, k);
    assert Untouched(d, mid, jobs[k].job.id);
    assert !UpToDate(mid, jobs[k]);
    assert jobs[..k + 1][..k] == jobs[..k] && stamps[..k + 1][..k] == stamps[..k];
    assert PlaceAll(d, jobs[..k + 1], stamps[..k + 1], parses).lastId > w.lastId;
    PlaceAllPrefix(d, jobs, stamps, parses, k + 1);
  }

  lemma {:induction false} PlaceAllPrefix(w: Worker, jobs: seq<DbJob>, stamps: seq<Time>, parses: Parses, m: nat)
    requires |stamps| == |jobs| && m <= |jobs|
    ensures PlaceAll(w, jobs[..m], stamps[..m], parses).lastId <= PlaceAll(w, jobs, stamps, parses).lastId
  {
    if m == |jobs| {
      assert jobs[..m] == jobs && stamps[..m] == stamps;
    } else {
      var n := |jobs| - 1;
      PlaceAllPrefix(w, jobs[..n], stamps[..n], parses, m);
      assert jobs[..n][..m] == jobs[..m] && stamps[..n][..m] == stamps[..m];
    }
  }

  /** After a pass whose clock is not behind the rows it read, there is nothing left to do. */
  lemma ReconcileSettles(w: Worker, jobs: seq<DbJob>, stamps: seq<Time>, parses: Parses)
    requires |stamps| == |jobs| && Linked(w, parses) && Distinct(jobs) && Dated(jobs)
    requires forall k | 0 <= k < |jobs| :: jobs[k].updatedAt <= stamps[k]
    ensures Settled(Reconcile(w, jobs, stamps, parses), jobs, parses)
  {
    ReconcileEffect(w, jobs, stamps, parses);
  }

  // ---- the scheduler itself ----

  /** robfig/cron as the scheduler uses it: IDs count up from 1 and removing an ID that
      is not registered does nothing. */
  class Cron {
    const parses: Parses
    var live: map<CronId, Registration>
    var lastId: CronId

    constructor (parses: Parses)
      ensures this.parses == parses && live == map[] && lastId == 0
    {
      this.parses := parses;
      live, lastId := map[], 0;
    }

    /** None is AddFunc's error return. */
    method AddFunc(reg: Registration) returns (id: Option<CronId>)
      modifies this
      ensures !parses(reg.expr) ==> id == None && live == old(live) && lastId == old(lastId)
      ensures parses(reg.expr) ==>
                lastId == old(lastId) + 1 && id == Some(lastId) && live == old(live)[lastId := reg]
      ensures parses(reg.expr) && (forall c | c in old(live) :: c <= old(lastId)) ==> lastId !in old(live) && lastId != 0
    {
      if !parses(reg.expr) {
        return None;
      }
      lastId := lastId + 1;
      live := live[lastId := reg];
      return Some(lastId);
    }

    method Remove(id: CronId)
      modifies this`live
      ensures live == old(live) - {id}
    {
      live := live - {id};
    }
  }

  class Scheduler {
    const c: Cron
    var entries: map<JobId, Entry>
    var cancelled: set<CtxId>
    var nextCtx: CtxId

    function View(): Worker
      reads this, c
    {
      Worker(entries, c.live, c.lastId, cancelled, nextCtx)
    }

    constructor (parses: Parses)
      ensures fresh(c) && c.parses == parses && View() == IDLE
    {
      c := new Cron(parses);
      entries, cancelled, nextCtx := map[], {}, 0;
    }

    method Cancel(fn: Option<CtxId>)
      modifies this`cancelled
      ensures cancelled == old(cancelled) + if fn.Some? then {fn.value} else {}
    {
      if fn.Some? {
        cancelled := cancelled + {fn.value};
      }
    }

    /** Cancel the entry's context, take its registration out of cron, forget it. */
    method Unschedule(id: JobId)
      requires id in entries
      modifies this`entries, this`cancelled, c`live
      ensures View() == Drop(old(View()), {id})
      ensures entries == old(entries) - {id} && c.live == old(c.live) - {old(entries)[id].cronId}
      ensures cancelled == old(cancelled) + if old(entries)[id].cancelFn.Some? then {old(entries)[id].cancelFn.value} else {}
    {
      var e := entries[id];
      ghost var before := View();
      assert before.entries - {id} == Drop(before, {id}).entries;
      assert CronIds(before, {id}) == {e.cronId};
      assert CancelFns(before, {id}) == if e.cancelFn.Some? then {e.cancelFn.value} else {};
      Cancel(e.cancelFn);
      c.Remove(e.cronId);
      entries := entries - {id};
      assert entries == Drop(before, {id}).entries && c.live == Drop(before, {id}).live;
    }

    /** First loop: entries whose job is no longer among the rows. */
    method RemoveInactive(activeIds: set<JobId>)
      modifies this`entries, this`cancelled, c`live
      ensures View() == Drop(old(View()), old(entries).Keys - activeIds)
      ensures forall id :: id in entries <==> id in old(entries) && id in activeIds
      ensures forall id | id in entries :: entries[id] == old(entries)[id]
    {
      ghost var start := View();
      var todo := entries.Keys;
      DropNothing(start, {});
      while todo != {}
        invariant todo <= entries.Keys
        invariant View() == Drop(start, start.entries.Keys - todo - activeIds)
        decreases todo
      {
        var id :| id in todo;
        ghost var gone := start.entries.Keys - todo - activeIds;
        todo := todo - {id};
        if id !in activeIds {
          Unschedule(id);
          DropMore(start, gone, id);
          assert start.entries.Keys - todo - activeIds == gone + {id};
        } else {
          assert start.entries.Keys - todo - activeIds == gone;
        }
      }
      assert start.entries.Keys - todo - activeIds == start.entries.Keys - activeIds;
    }

    /** Body of the second loop: keep an up-to-date entry, replace or add any other. */
    method PlaceRow(j: DbJob, now: Time)
      modifies this`entries, this`cancelled, c
      ensures View() == Place(old(View()), j, now, c.parses)
      ensures entries != old(entries) ==> j.job.id !in old(entries) || old(entries)[j.job.id].scheduledAt < j.updatedAt
      ensures (j.job.id in old(entries) ==> old(entries)[j.job.id].scheduledAt < j.updatedAt) ==>
                if c.parses("CRON_TZ=" + j.timezone + " " + j.cronExpr)
                then && j.job.id in entries && entries[j.job.id] == Entry(old(c.lastId) + 1, now, None)
                     && entries[j.job.id].cronId in c.live && c.live[entries[j.job.id].cronId].job == j.job
                     && Names(c.live[entries[j.job.id].cronId].expr, j.timezone, j.cronExpr)
                else j.job.id !in entries
    {
      if j.job.id in entries && !(entries[j.job.id].scheduledAt < j.updatedAt) {
        return;
      }
      if j.job.id in entries {
        Unschedule(j.job.id);
      } else {
        DropNothing(View(), {j.job.id});
      }
      ExprReadsBack(j);
      var id := c.AddFunc(Registration(Expr(j), j.job));
      if id.Some? {
        entries := entries[j.job.id := Entry(id.value, now, None)];
      }
    }

    /** The part of sync under the mutex, on the rows the query returned; `stamps[k]` is
        what time.Now() reads if row `k` is registered. */
    method Sync(jobs: seq<DbJob>, stamps: seq<Time>)
      requires |stamps| == |jobs|
      modifies this`entries, this`cancelled, c
      ensures View() == Reconcile(old(View()), jobs, stamps, c.parses)
    {
      var activeIds: set<JobId> := {};
      for k := 0 to |jobs|
        invariant activeIds == Ids(jobs[..k]) && View() == old(View())
      {
        activeIds := activeIds + {jobs[k].job.id};
        IdsSnoc(jobs, k);
      }
      assert jobs[..|jobs|] == jobs;
      RemoveInactive(activeIds);
      ghost var base := View();
      for k := 0 to |jobs|
        invariant View() == PlaceAll(base, jobs[..k], stamps[..k], c.parses)
      {
        assert jobs[..k + 1][..k] == jobs[..k] && stamps[..k + 1][..k] == stamps[..k];
        PlaceRow(jobs[k], stamps[k]);
      }
      assert jobs[..|jobs|] == jobs && stamps[..|jobs|] == stamps;
    }

    /** Head of the Replace callback's locked section. */
    method CancelPrevious(id: JobId) returns (e: Entry)
      modifies this`cancelled
      ensures e == Lookup(entries, id)
      ensures View() == CancelStored(old(View()), e)
      ensures cancelled == old(cancelled) + if e.cancelFn.Some? then {e.cancelFn.value} else {}
    {
      e := if id in entries then entries[id] else NoEntry;
      Cancel(e.cancelFn);
    }

    /** Tail of the locked section: a new context, stored with the entry read at its head. */
    method KeepContext(id: JobId, e: Entry) returns (ctx: CtxId)
      modifies this`entries, this`nextCtx
      ensures ctx == old(nextCtx) && View() == StoreContext(old(View()), id, e)
      ensures entries == old(entries)[id := Entry(e.cronId, e.scheduledAt, Some(ctx))]
    {
      ctx := nextCtx;
      nextCtx := nextCtx + 1;
      entries := entries[id := e.(cancelFn := Some(ctx))];
    }
  }

  lemma IdsSnoc(jobs: seq<DbJob>, k: nat)
    requires k < |jobs|
    ensures Ids(jobs[..k + 1]) == Ids(jobs[..k]) + {jobs[k].job.id}
  {
    forall id | id in Ids(jobs[..k + 1])
      ensures id in Ids(jobs[..k]) + {jobs[k].job.id}
    {
      var l :| 0 <= l <= k && jobs[..k + 1][l].job.id == id;
      if l < k { assert jobs[..k][l].job.id == id; }
    }
    forall id | id in Ids(jobs[..k]) + {jobs[k].job.id}
      ensures id in Ids(jobs[..k + 1])
    {
      if id != jobs[k].job.id {
        var l :| 0 <= l < k && jobs[..k][l].job.id == id;
        assert jobs[..k + 1][l].job.id == id;
      } else {
        assert jobs[..k + 1][k].job.id == id;
      }
    }
  }

  lemma DropMore(w: Worker, gone: set<JobId>, id: JobId)
    requires id !in gone
    ensures Drop(Drop(w, gone), {id}) == Drop(w, gone + {id})
  {
    var d := Drop(w, gone);
    assert CronIds(d, {id}) + CronIds(w, gone) == CronIds(w, gone + {id});
    assert CancelFns(d, {id}) + CancelFns(w, gone) == CancelFns(w, gone + {id});
    assert Drop(d, {id}).entries == Drop(w, gone + {id}).entries;
    assert Drop(d, {id}).live == Drop(w, gone + {id}).live;
  }
}
