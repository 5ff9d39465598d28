/** The report's daily series: a dense run of days filled from a grouped query, and the
    summary's counters. Times are milliseconds and days are whole UTC days; the database
    and the handler see one `now`. */
module Timeline {
  import opened Domain
  import opened Tables

  const DAY: int := 86400000

  datatype Execution = Execution(startedAt: int, status: ExecStatus)

  datatype Point = Point(date: int, success: nat, failure: nat, total: nat)

  const ANY: set<ExecStatus> := {Running, Success, Failure}

  function DayOf(t: int): int { t / DAY }

  /** The days query parameter: 1 to 90, anything else means 30. */
  function Days(asked: int): (days: nat)
    ensures 1 <= days <= 90
    ensures 1 <= asked <= 90 ==> days == asked
    ensures asked < 1 || 90 < asked ==> days == 30
  {
    if asked <= 0 || asked > 90 then 30 else asked
  }

  predicate InWindow(e: Execution, now: int, days: nat) {
    e.startedAt >= now - days * DAY
  }

  /** Executions of the query's window. */
  function WindowCount(execs: seq<Execution>, now: int, days: nat): nat {
    if execs == [] then 0
    else WindowCount(execs[..|execs| - 1], now, days) + if InWindow(execs[|execs| - 1], now, days) then 1 else 0
  }

  predicate Falls(e: Execution, now: int, days: nat, lo: int, hi: int, which: set<ExecStatus>) {
    InWindow(e, now, days) && lo <= DayOf(e.startedAt) < hi && e.status in which
  }

  /** Executions of the window dated from day `lo` up to but not including day `hi`. */
  function Count(execs: seq<Execution>, now: int, days: nat, lo: int, hi: int, which: set<ExecStatus>): nat {
    if execs == [] then 0
    else Count(execs[..|execs| - 1], now, days, lo, hi, which)
         + if Falls(execs[|execs| - 1], now, days, lo, hi, which) then 1 else 0
  }

  function OnDay(execs: seq<Execution>, now: int, days: nat, d: int, which: set<ExecStatus>): nat {
    Count(execs, now, days, d, d + 1, which)
  }

  /** The executions of day `d` inside the window, grouped. */
  function DayPoint(execs: seq<Execution>, now: int, days: nat, d: int): Point {
    Point(d, OnDay(execs, now, days, d, {Success}), OnDay(execs, now, days, d, {Failure}), OnDay(execs, now, days, d, ANY))
  }

  /** What the grouped query returns: ascending days, each with its counts, no day with
      an execution left out and none without one. */
  ghost predicate Grouped(rows: seq<Point>, execs: seq<Execution>, now: int, days: nat) {
    && (forall i, j | 0 <= i < j < |rows| :: rows[i].date < rows[j].date)
    && (forall i | 0 <= i < |rows| :: rows[i].total > 0 && rows[i] == DayPoint(execs, now, days, rows[i].date))
    && (forall d | OnDay(execs, now, days, d, ANY) > 0 :: exists i :: 0 <= i < |rows| && rows[i].date == d)
  }

  /** `days` consecutive days ending today, each with its counts, zeros included. */
  function Series(execs: seq<Execution>, now: int, days: nat): (points: seq<Point>)
    ensures |points| == days
    ensures forall i | 0 <= i < days :: points[i] == DayPoint(execs, now, days, DayOf(now) - days + 1 + i)
  {
    seq(days, i requires 0 <= i < days => DayPoint(execs, now, days, DayOf(now) - (days - 1 - i)))
  }

  // ---- the handler's loops ----

  /** The map holds exactly the rows, each under its date. */
  ghost predicate Indexes(byDate: map<int, Point>, rows: seq<Point>) {
    && (forall i | 0 <= i < |rows| :: rows[i].date in byDate && byDate[rows[i].date] == rows[i])
    && (forall d | d in byDate :: exists i :: 0 <= i < |rows| && rows[i].date == d)
  }

  method IndexByDate(rows: seq<Point>) returns (byDate: map<int, Point>)
    requires forall i, j | 0 <= i < j < |rows| :: rows[i].date < rows[j].date
    ensures Indexes(byDate, rows)
  {
    byDate := map[];
    for k := 0 to |rows|
      invariant forall i | 0 <= i < k :: rows[i].date in byDate && byDate[rows[i].date] == rows[i]
      invariant forall d | d in byDate :: exists i :: 0 <= i < k && rows[i].date == d
    {
      byDate := byDate[rows[k].date := rows[k]];
    }
  }

  function Filled(byDate: map<int, Point>, d: int): Point {
    if d in byDate then byDate[d] else Point(d, 0, 0, 0)
  }

  /** The handler turns the grouped rows into the dense series. */
  method ReportTimeline(rows: seq<Point>, asked: int, now: int, ghost execs: seq<Execution>) returns (points: array<Point>)
    requires Grouped(rows, execs, now, Days(asked))
    ensures fresh(points) && points[..] == Series(execs, now, Days(asked))
  {
    var days := Days(asked);
    var byDate := IndexByDate(rows);
    SeriesIsFilled(rows, byDate, execs, now, days);
    points := Densify(byDate, days, now);
  }

  method Densify(byDate: map<int, Point>, days: nat, now: int) returns (points: array<Point>)
    ensures fresh(points) && points.Length == days
    ensures forall i | 0 <= i < days :: points[i] == Filled(byDate, DayOf(now) - (days - 1 - i))
  {
    points := new Point[days](_ => Point(0, 0, 0, 0));
    for i := 0 to days
      invariant forall k | 0 <= k < i :: points[k] == Filled(byDate, DayOf(now) - (days - 1 - k))
    {
      var date := DayOf(now) - (days - 1 - i);
      if date in byDate {
        points[i] := byDate[date];
      } else {
        points[i] := Point(date, 0, 0, 0);
      }
    }
  }

  lemma SeriesIsFilled(rows: seq<Point>, byDate: map<int, Point>, execs: seq<Execution>, now: int, days: nat)
    requires Grouped(rows, execs, now, days) && Indexes(byDate, rows)
    ensures forall i | 0 <= i < days :: Series(execs, now, days)[i] == Filled(byDate, DayOf(now) - (days - 1 - i))
  {
    forall i | 0 <= i < days
      ensures Series(execs, now, days)[i] == Filled(byDate, DayOf(now) - (days - 1 - i))
    {
      PointOf(rows, byDate, execs, now, days, DayOf(now) - (days - 1 - i));
    }
  }

  lemma PointOf(rows: seq<Point>, byDate: map<int, Point>, execs: seq<Execution>, now: int, days: nat, d: int)
    requires Grouped(rows, execs, now, days) && Indexes(byDate, rows)
    ensures DayPoint(execs, now, days, d) == Filled(byDate, d)
  {
    if d in byDate {
      var i :| 0 <= i < |rows| && rows[i].date == d;
    } else {
      PointAddsUp(execs, now, days, d);
    }
  }

  // ---- what is counted ----

  /** The executions a count counts. */
  function Counted(execs: seq<Execution>, now: int, days: nat, lo: int, hi: int, which: set<ExecStatus>): set<int> {
    set k | 0 <= k < |execs|
            && now - days * 86400000 <= execs[k].startedAt && lo * 86400000 <= execs[k].startedAt < hi * 86400000 && execs[k].status in which
  }

  lemma FallsIs(e: Execution, now: int, days: nat, lo: int, hi: int, which: set<ExecStatus>)
    ensures Falls(e, now, days, lo, hi, which)
       <==> now - days * 86400000 <= e.startedAt && lo * 86400000 <= e.startedAt < hi * 86400000 && e.status in which
  {
  }

  lemma {:induction false} CountMeans(execs: seq<Execution>, now: int, days: nat, lo: int, hi: int, which: set<ExecStatus>)
    ensures Count(execs, now, days, lo, hi, which) == |Counted(execs, now, days, lo, hi, which)|
  {
    if execs == [] {
      assert Counted(execs, now, days, lo, hi, which) == {};
    } else {
      var n := |execs| - 1;
      CountMeans(execs[..n], now, days, lo, hi, which);
      FallsIs(execs[n], now, days, lo, hi, which);
      assert Counted(execs, now, days, lo, hi, which)
          == Counted(execs[..n], now, days, lo, hi, which) + if Falls(execs[n], now, days, lo, hi, which) then {n} else {};
    }
  }

  /** The series, day by day: its points are dated with the `days` days up to today, oldest
      first, and count the successes, the failures and all the executions that started on
      the day and inside the window. */
  lemma SeriesMeans(execs: seq<Execution>, now: int, days: nat, i: nat)
    requires i < days
    ensures var point := Series(execs, now, days)[i];
            && point.date == now / 86400000 - days + 1 + i
            && point.success == |Counted(execs, now, days, point.date, point.date + 1, {Success})|
            && point.failure == |Counted(execs, now, days, point.date, point.date + 1, {Failure})|
            && point.total == |Counted(execs, now, days, point.date, point.date + 1, {Running, Success, Failure})|
  {
    var d := Series(execs, now, days)[i].date;
    CountMeans(execs, now, days, d, d + 1, {Success});
    CountMeans(execs, now, days, d, d + 1, {Failure});
    CountMeans(execs, now, days, d, d + 1, ANY);
  }

  // ---- conservation ----

  function Totals(points: seq<Point>): nat {
    if points == [] then 0 else Totals(points[..|points| - 1]) + points[|points| - 1].total
  }

  lemma {:induction false} CountSplit(execs: seq<Execution>, now: int, days: nat, lo: int, mid: int, hi: int, which: set<ExecStatus>)
    requires lo <= mid <= hi
    ensures Count(execs, now, days, lo, hi, which)
         == Count(execs, now, days, lo, mid, which) + Count(execs, now, days, mid, hi, which)
  {
    if execs != [] { CountSplit(execs[..|execs| - 1], now, days, lo, mid, hi, which); }
  }

  lemma {:induction false} CountNone(execs: seq<Execution>, now: int, days: nat, d: int, which: set<ExecStatus>)
    ensures Count(execs, now, days, d, d, which) == 0
  {
    if execs != [] { CountNone(execs[..|execs| - 1], now, days, d, which); }
  }

  /** Consecutive days add up to their range. */
  lemma {:induction false} DaysAddUp(points: seq<Point>, execs: seq<Execution>, now: int, days: nat, first: int)
    requires forall i | 0 <= i < |points| :: points[i] == DayPoint(execs, now, days, first + i)
    ensures Totals(points) == Count(execs, now, days, first, first + |points|, ANY)
  {
    if points == [] {
      CountNone(execs, now, days, first, ANY);
    } else {
      var n := |points| - 1;
      DaysAddUp(points[..n], execs, now, days, first);
      CountSplit(execs, now, days, first, first + n, first + n + 1, ANY);
    }
  }

  lemma {:induction false} WindowIsRange(execs: seq<Execution>, now: int, days: nat)
    requires forall k | 0 <= k < |execs| :: execs[k].startedAt <= now
    ensures WindowCount(execs, now, days) == Count(execs, now, days, DayOf(now) - days, DayOf(now) + 1, ANY)
  {
    if execs != [] {
      var n := |execs| - 1;
      WindowIsRange(execs[..n], now, days);
      var s := execs[n].status;
      assert s == Success || s == Failure || s == Running;
    }
  }

  /** The series accounts for every execution of the window except those dated exactly
      `days` days ago: the query's window opens in the middle of that day, the series
      the day after. */
  lemma TimelineConserves(execs: seq<Execution>, now: int, days: nat)
    requires 1 <= days
    requires forall k | 0 <= k < |execs| :: execs[k].startedAt <= now
    ensures Totals(Series(execs, now, days)) + OnDay(execs, now, days, DayOf(now) - days, ANY) == WindowCount(execs, now, days)
  {
    var first := DayOf(now) - days + 1;
    DaysAddUp(Series(execs, now, days), execs, now, days, first);
    CountSplit(execs, now, days, first - 1, first, DayOf(now) + 1, ANY);
    WindowIsRange(execs, now, days);
  }

  /** Such executions exist for any `now` and `days`: the first moment of the window is one. */
  lemma OldestDayIsLeftOut(now: int, days: nat)
    requires 1 <= days
    ensures var execs := [Execution(now - days * DAY, Success)];
            WindowCount(execs, now, days) == 1 && Totals(Series(execs, now, days)) == 0
  {
    var execs := [Execution(now - days * DAY, Success)];
    assert execs[..0] == [];
    TimelineConserves(execs, now, days);
  }

  /** success + failure + running is the total: a day's running executions are its total
      less its two shown counts. */
  lemma {:induction false} StatusesAddUp(execs: seq<Execution>, now: int, days: nat, lo: int, hi: int)
    ensures Count(execs, now, days, lo, hi, {Success}) + Count(execs, now, days, lo, hi, {Failure})
            + Count(execs, now, days, lo, hi, {Running}) == Count(execs, now, days, lo, hi, ANY)
  {
    if execs != [] {
      StatusesAddUp(execs[..|execs| - 1], now, days, lo, hi);
      var s := execs[|execs| - 1].status;
      assert s == Success || s == Failure || s == Running;
    }
  }

  lemma PointAddsUp(execs: seq<Execution>, now: int, days: nat, d: int)
    ensures var point := DayPoint(execs, now, days, d);
            point.success + point.failure + OnDay(execs, now, days, d, {Running}) == point.total
  {
    StatusesAddUp(execs, now, days, d, d + 1);
  }

  // ---- the summary ----

  function CountStatus(execs: seq<Execution>, s: ExecStatus): nat {
    if execs == [] then 0 else CountStatus(execs[..|execs| - 1], s) + if execs[|execs| - 1].status == s then 1 else 0
  }

  /** The rows a report reads for a user: every execution of one of the user's jobs, once. */
  ghost predicate Reported(db: Tables, user: UserId, xs: seq<ExecId>) {
    && (forall k, l | 0 <= k < l < |xs| :: xs[k] != xs[l])
    && (forall x :: x in xs <==> x in db.execs && Owned(db, Some(user), db.execs[x].jobId))
  }

  predicate Present(db: Tables, xs: seq<ExecId>) {
    forall k | 0 <= k < |xs| :: xs[k] in db.execs
  }

  function Read(db: Tables, xs: seq<ExecId>): seq<Execution>
    requires Present(db, xs)
  {
    if xs == [] then []
    else
      var row := db.execs[xs[|xs| - 1]];
      Read(db, xs[..|xs| - 1]) + [Execution(row.startedAt, row.status)]
  }

  predicate Unfinished(row: ExecRow) { row.completedAt == None }

  predicate Succeeded(row: ExecRow) { row.responseStatus.Some? && row.responseStatus.value < 400 }

  predicate Failed(row: ExecRow) { row.errorMessage.Some? || (row.responseStatus.Some? && row.responseStatus.value >= 400) }

  predicate Means(row: ExecRow, s: ExecStatus) {
    match s case Running => Unfinished(row) case Success => Succeeded(row) case Failure => Failed(row)
  }

  function Meaning(db: Tables, xs: seq<ExecId>, s: ExecStatus): set<ExecId> {
    set x | x in db.execs && x in xs && Means(db.execs[x], s)
  }

  lemma MeansIs(row: ExecRow, s: ExecStatus)
    requires RowOk(row)
    ensures Means(row, s) <==> row.status == s
  {
  }

  lemma MeaningSnoc(db: Tables, xs: seq<ExecId>, x: ExecId, s: ExecStatus)
    requires x in db.execs && x !in xs
    ensures |Meaning(db, xs + [x], s)| == |Meaning(db, xs, s)| + if Means(db.execs[x], s) then 1 else 0
  {
    var now := Meaning(db, xs + [x], s);
    if Means(db.execs[x], s) {
      assert now == Meaning(db, xs, s) + {x};
    } else {
      assert now == Meaning(db, xs, s);
    }
  }

  lemma {:induction false} CountsRows(db: Tables, xs: seq<ExecId>, s: ExecStatus)
    requires TablesOk(db) && Present(db, xs)
    requires forall k, l | 0 <= k < l < |xs| :: xs[k] != xs[l]
    ensures CountStatus(Read(db, xs), s) == |Meaning(db, xs, s)| && |Read(db, xs)| == |xs|
  {
    if xs == [] {
      assert Meaning(db, xs, s) == {};
    } else {
      var n := |xs| - 1;
      CountsRows(db, xs[..n], s);
      assert ExecOk(db, xs[n]);
      MeansIs(db.execs[xs[n]], s);
      assert xs == xs[..n] + [xs[n]];
      MeaningSnoc(db, xs[..n], xs[n], s);
      assert Read(db, xs)[..n] == Read(db, xs[..n]);
    }
  }

  /** What the counters of the summary mean. In every reachable state they count the
      user's executions that are not completed, that got a response below 400, and that got
      an error or another response; each execution is one of these, so they add up. */
  lemma {:induction false} SummaryAddsUp(db: Tables, user: UserId, xs: seq<ExecId>)
    requires TablesOk(db) && Reported(db, user, xs)
    ensures Present(db, xs)
    ensures CountStatus(Read(db, xs), Running) == |set x | x in db.execs && x in xs && Unfinished(db.execs[x])|
    ensures CountStatus(Read(db, xs), Success) == |set x | x in db.execs && x in xs && Succeeded(db.execs[x])|
    ensures CountStatus(Read(db, xs), Failure) == |set x | x in db.execs && x in xs && Failed(db.execs[x])|
    ensures CountStatus(Read(db, xs), Success) + CountStatus(Read(db, xs), Failure) + CountStatus(Read(db, xs), Running) == |xs|
  {
    assert Present(db, xs) by { forall k | 0 <= k < |xs| ensures xs[k] in db.execs { assert xs[k] in xs; } }
    CountsRows(db, xs, Running);
    CountsRows(db, xs, Success);
    CountsRows(db, xs, Failure);
    assert Meaning(db, xs, Running) == set x | x in db.execs && x in xs && Unfinished(db.execs[x]);
    assert Meaning(db, xs, Success) == set x | x in db.execs && x in xs && Succeeded(db.execs[x]);
    assert Meaning(db, xs, Failure) == set x | x in db.execs && x in xs && Failed(db.execs[x]);
    CountsAddUp(Read(db, xs));
  }

  lemma {:induction false} CountsAddUp(execs: seq<Execution>)
    ensures CountStatus(execs, Success) + CountStatus(execs, Failure) + CountStatus(execs, Running) == |execs|
  {
    if execs != [] {
      CountsAddUp(execs[..|execs| - 1]);
      var s := execs[|execs| - 1].status;
      assert s == Success || s == Failure || s == Running;
    }
  }
}
