/** The entities CronPilot's worker and API share: job definitions, execution rows,
    the outcome of one HTTP call and the text it is reported with. */
module Domain {

  datatype Option<+T> = None | Some(value: T)

  // Identifiers are never reused (random UUIDs, cron's counter, fresh Go contexts),
  // so each kind is a counter.
  type JobId = nat
  type ExecId = nat
  type UserId = nat
  type TaskId = nat
  type CronId = nat   // 0 is Go's zero EntryID, which cron never hands out
  type CtxId = nat
  type Time = nat     // 0 is Go's zero time.Time

  /** The concurrency_policy column holds any text; every text other than the two
      tested for takes the default (Allow) branch. */
  datatype Policy = Forbid | Replace | Other(text: string)

  datatype Request = Request(name: string, url: string, verb: string, headers: string,
                             body: Option<string>, timeoutSeconds: int)

  /** executor.Job: what a run needs to know about its job. */
  datatype ExecJob = ExecJob(id: JobId, request: Request, policy: Policy)

  datatype JobStatus = Active | Paused

  datatype JobRow = JobRow(owner: UserId, request: Request, policy: Policy, cronExpr: string, timezone: string,
                           status: JobStatus, updatedAt: Time, lastRunAt: Option<Time>)

  datatype ExecStatus = Running | Success | Failure

  /** triggered_by: "schedule" for cron, "manual" for both trigger endpoints. */
  datatype Origin = Tick | Manual

  datatype ExecRow = ExecRow(jobId: JobId, status: ExecStatus, triggeredBy: Origin, startedAt: Time,
                             completedAt: Option<Time>, durationMs: Option<int>,
                             responseStatus: Option<int>, responseBody: Option<string>,
                             errorMessage: Option<string>, cancelRequested: bool)

  /** One row of the sync query. */
  datatype DbJob = DbJob(job: ExecJob, cronExpr: string, timezone: string, updatedAt: Time)

  function ToDbJob(id: JobId, row: JobRow): DbJob {
    DbJob(ExecJob(id, row.request, row.policy), row.cronExpr, row.timezone, row.updatedAt)
  }

  /** What doRequest returns: the request could not be built, the call failed, the
      call failed because its context was cancelled, or the server answered. */
  datatype Outcome =
    | BuildError(text: string)
    | CallError(text: string)
    | Cancelled
    | Response(code: int, body: string)

  const REPLACED := "replaced by newer execution"

  function ErrorText(o: Outcome): string
    requires !o.Response?
  {
    match o
    case BuildError(text) => "build request: " + text
    case CallError(text) => "request failed: " + text
    case Cancelled => REPLACED
  }

  /** The row is the one run left behind with this outcome. */
  function Completed(row: ExecRow, o: Outcome, at: Time, duration: int): ExecRow {
    match o
    case Response(code, body) =>
      row.(status := if code < 400 then Success else Failure, completedAt := Some(at), durationMs := Some(duration),
           responseStatus := Some(code), responseBody := Some(body))
    case _ =>
      row.(status := Failure, completedAt := Some(at), durationMs := Some(duration), errorMessage := Some(ErrorText(o)))
  }

  /** Shape of an execution row at every moment. */
  predicate RowOk(row: ExecRow) {
    if row.status == Running then
      && row.completedAt == None && row.durationMs == None
      && row.responseStatus == None && row.responseBody == None && row.errorMessage == None
    else
      && row.completedAt.Some? && row.durationMs.Some?
      && row.responseStatus.Some? == row.responseBody.Some?
      && (row.errorMessage.Some? <==> row.responseStatus == None)
      && (row.status == Success <==> row.responseStatus.Some? && row.responseStatus.value < 400)
  }

  /** Only a cancelled call is reported with the replacement text: every other error
      carries a prefix that differs from it. */
  lemma OnlyCancelledIsReplaced(o: Outcome)
    requires !o.Response?
    ensures ErrorText(o) == REPLACED <==> o.Cancelled?
  {
    match o
    case BuildError(text) => assert ErrorText(o)[0] == 'b'; assert REPLACED[0] == 'r';
    case CallError(text) => assert ErrorText(o)[2] == 'q'; assert REPLACED[2] == 'p';
    case Cancelled =>
  }
}
