/** The two services' schema scripts against the database catalog. Every start-up runs
    its whole script, one statement at a time, in any interleaving with the others. */
module Migrations {
  import opened Domain

  datatype TableName = Users | Jobs | Executions

  datatype ColumnName =
    | Id | CreatedAt | UpdatedAt | Status | UserId | JobId
    | Email | PasswordHash | Role
    | Name | Description | CronExpression | Url | Verb | Headers | Body | Timezone | TimeoutSeconds | LastRunAt | ConcurrencyPolicy
    | TriggeredBy | StartedAt | CompletedAt | DurationMs | ResponseStatus | ResponseBody | ErrorMessage | CancelRequested

  datatype SqlType = Uuid | Varchar(size: nat) | Text | Int | Timestamp | Jsonb | Boolean

  datatype Default = NoDefault | RandomUuid | CurrentTime | UserRole | VerbGet | EmptyObject | ActiveJob | Utc | Thirty | RunningRow
                   | BySchedule | AllowAll | NotAsked

  /** A column's type and constraints; a foreign key names its table. */
  datatype Def = Def(kind: SqlType, notNull: bool, default: Default, unique: bool, refs: Option<TableName>)

  type Columns = map<ColumnName, Def>

  datatype IndexName = ByJobId | ByStarted | ByStatus | ByUserId

  datatype Index = Index(table: TableName, column: ColumnName, descending: bool)

  datatype Catalog = Catalog(pgcrypto: bool, tables: map<TableName, Columns>, indexes: map<IndexName, Index>)

  const EMPTY := Catalog(false, map[], map[])

  // Every one is guarded by IF NOT EXISTS.
  datatype Statement =
    | CreateExtension
    | CreateTable(table: TableName, columns: Columns)
    | AddColumn(onTable: TableName, column: ColumnName, def: Def)
    | CreateIndex(name: IndexName, index: Index)

  function Apply(cat: Catalog, st: Statement): Catalog {
    match st
    case CreateExtension => cat.(pgcrypto := true)
    case CreateTable(t, columns) => if t in cat.tables then cat else cat.(tables := cat.tables[t := columns])
    case AddColumn(t, c, def) =>
      if t in cat.tables && c !in cat.tables[t] then cat.(tables := cat.tables[t := cat.tables[t][c := def]]) else cat
    case CreateIndex(name, index) => if name in cat.indexes then cat else cat.(indexes := cat.indexes[name := index])
  }

  /** What a statement needs to find: gen_random_uuid for a new table, its own table, the
      tables its foreign keys name, the column it indexes. */
  predicate Ready(cat: Catalog, st: Statement) {
    match st
    case CreateExtension => true
    case CreateTable(_, columns) =>
      cat.pgcrypto && forall c | c in columns && columns[c].refs.Some? :: columns[c].refs.value in cat.tables
    case AddColumn(t, _, def) => t in cat.tables && (def.refs.Some? ==> def.refs.value in cat.tables)
    case CreateIndex(_, index) => index.table in cat.tables && index.column in cat.tables[index.table]
  }

  // ---- the scripts ----

  const KEY := Def(Uuid, true, RandomUuid, true, None)

  function Plain(kind: SqlType, notNull: bool, default: Default): Def {
    Def(kind, notNull, default, false, None)
  }

  /** The definition both scripts give a column, in CREATE and in ALTER alike. */
  function DefOf(t: TableName, c: ColumnName): Def {
    match t
    case Users =>
      (match c
       case Id => KEY
       case Email => Def(Varchar(255), true, NoDefault, true, None)
       case PasswordHash => Plain(Varchar(255), true, NoDefault)
       case Role => Plain(Varchar(20), true, UserRole)
       case _ => Plain(Timestamp, false, CurrentTime))
    case Jobs =>
      (match c
       case Id => KEY
       case UserId => Def(Uuid, false, NoDefault, false, Some(Users))
       case Name => Plain(Varchar(255), true, NoDefault)
       case CronExpression => Plain(Varchar(100), true, NoDefault)
       case Url => Plain(Varchar(2048), true, NoDefault)
       case Verb => Plain(Varchar(10), true, VerbGet)
       case Headers => Plain(Jsonb, false, EmptyObject)
       case Status => Plain(Varchar(20), true, ActiveJob)
       case Timezone => Plain(Varchar(100), false, Utc)
       case TimeoutSeconds => Plain(Int, false, Thirty)
       case LastRunAt => Plain(Timestamp, false, NoDefault)
       case CreatedAt => Plain(Timestamp, false, CurrentTime)
       case UpdatedAt => Plain(Timestamp, false, CurrentTime)
       case ConcurrencyPolicy => Plain(Varchar(20), true, AllowAll)
       case _ => Plain(Text, false, NoDefault))
    case Executions =>
      (match c
       case Id => KEY
       case JobId => Def(Uuid, true, NoDefault, false, Some(Jobs))
       case Status => Plain(Varchar(20), true, RunningRow)
       case TriggeredBy => Plain(Varchar(20), false, BySchedule)
       case StartedAt => Plain(Timestamp, true, CurrentTime)
       case CompletedAt => Plain(Timestamp, false, NoDefault)
       case DurationMs => Plain(Int, false, NoDefault)
       case ResponseStatus => Plain(Int, false, NoDefault)
       case CancelRequested => Plain(Boolean, true, NotAsked)
       case _ => Plain(Text, false, NoDefault))
  }

  /** Columns every CREATE of the table has. */
  function Base(t: TableName): set<ColumnName> {
    match t
    case Users => {Id, Email, PasswordHash, CreatedAt}
    case Jobs => {Id, Name, Description, CronExpression, Url, Verb, Headers, Body, Status, Timezone, TimeoutSeconds,
                  LastRunAt, CreatedAt, UpdatedAt}
    case Executions => {Id, JobId, Status, TriggeredBy, StartedAt, CompletedAt, DurationMs, ResponseStatus, ResponseBody, ErrorMessage}
  }

  /** Columns the ALTER statements see to. */
  function Added(t: TableName): set<ColumnName> {
    match t
    case Users => {Role}
    case Jobs => {UserId, ConcurrencyPolicy}
    case Executions => {CancelRequested}
  }

  function Table(t: TableName, names: set<ColumnName>): Columns {
    map c | c in names :: DefOf(t, c)
  }

  function Create(t: TableName, extra: set<ColumnName>): Statement {
    CreateTable(t, Table(t, Base(t) + extra))
  }

  function Alter(t: TableName, c: ColumnName): Statement {
    AddColumn(t, c, DefOf(t, c))
  }

  const BY_JOB := Index(Executions, JobId, false)
  const BY_STARTED := Index(Executions, StartedAt, true)
  const BY_STATUS := Index(Jobs, Status, false)
  const BY_USER := Index(Jobs, UserId, false)

  function ApiStatement(n: nat): Statement {
    match n
    case 0 => CreateExtension
    case 1 => Create(Users, {Role})
    case 2 => Alter(Users, Role)
    case 3 => Create(Jobs, {UserId})
    case 4 => Alter(Jobs, UserId)
    case 5 => Create(Executions, {CancelRequested})
    case 6 => Alter(Executions, CancelRequested)
    case 7 => Alter(Jobs, ConcurrencyPolicy)
    case 8 => CreateIndex(ByJobId, BY_JOB)
    case 9 => CreateIndex(ByStarted, BY_STARTED)
    case 10 => CreateIndex(ByStatus, BY_STATUS)
    case _ => CreateIndex(ByUserId, BY_USER)
  }

  function WorkerStatement(n: nat): Statement {
    match n
    case 0 => CreateExtension
    case 1 => Create(Jobs, {})
    case 2 => Create(Executions, {CancelRequested})
    case 3 => Alter(Jobs, ConcurrencyPolicy)
    case 4 => Alter(Executions, CancelRequested)
    case 5 => CreateIndex(ByJobId, BY_JOB)
    case 6 => CreateIndex(ByStarted, BY_STARTED)
    case _ => CreateIndex(ByStatus, BY_STATUS)
  }

  function ApiScript(): seq<Statement> { seq(12, n requires 0 <= n < 12 => ApiStatement(n)) }

  function WorkerScript(): seq<Statement> { seq(8, n requires 0 <= n < 8 => WorkerStatement(n)) }

  predicate IsScript(script: seq<Statement>) {
    script == ApiScript() || script == WorkerScript()
  }

  // ---- where every start-up leads ----

  function Full(t: TableName): Columns { Table(t, Base(t) + Added(t)) }

  function IndexOf(n: IndexName): Index {
    match n case ByJobId => BY_JOB case ByStarted => BY_STARTED case ByStatus => BY_STATUS case ByUserId => BY_USER
  }

  const FINAL := Catalog(true, map t | t in {Users, Jobs, Executions} :: Full(t),
                         map n | n in {ByJobId, ByStarted, ByStatus, ByUserId} :: IndexOf(n))

  /** A table on the way: its base columns, perhaps some of the added ones, nothing else. */
  ghost predicate Partial(t: TableName, columns: Columns) {
    && Base(t) <= columns.Keys <= Base(t) + Added(t)
    && forall c | c in columns :: columns[c] == DefOf(t, c)
  }

  /** A catalog start-ups may find: the empty one, one an earlier or interrupted start-up
      left, or one whose tables predate the added columns. */
  ghost predicate OnTheWay(cat: Catalog) {
    && (forall t | t in cat.tables :: Partial(t, cat.tables[t]))
    && (forall n | n in cat.indexes :: cat.indexes[n] == IndexOf(n))
  }

  /** The statement's object is there. */
  ghost predicate Done(cat: Catalog, st: Statement) {
    match st
    case CreateExtension => cat.pgcrypto
    case CreateTable(t, _) => t in cat.tables
    case AddColumn(t, c, _) => t in cat.tables && c in cat.tables[t]
    case CreateIndex(name, _) => name in cat.indexes
  }

  ghost predicate DoneUpTo(cat: Catalog, script: seq<Statement>, n: nat)
    requires n <= |script|
  {
    forall k | 0 <= k < n :: Done(cat, script[k])
  }

  /** One of the statements of the two scripts. */
  ghost predicate Known(st: Statement) {
    match st
    case CreateExtension => true
    case CreateTable(t, columns) => Partial(t, columns)
    case AddColumn(t, c, def) => c in Added(t) && def == DefOf(t, c)
    case CreateIndex(name, index) => index == IndexOf(name)
  }

  lemma ApplyKeepsTheWay(cat: Catalog, st: Statement)
    requires OnTheWay(cat) && Known(st)
    ensures OnTheWay(Apply(cat, st))
  {
    match st
    case AddColumn(t, c, def) =>
      if t in cat.tables {
        assert Partial(t, cat.tables[t]);
        assert Partial(t, cat.tables[t][c := def]);
      }
    case _ =>
  }

  lemma ApplyOnlyAdds(cat: Catalog, st: Statement, other: Statement)
    ensures Done(cat, other) ==> Done(Apply(cat, st), other)
    ensures Ready(cat, st) ==> Done(Apply(cat, st), st)
  {
  }

  /** Run in order, each statement of the script finds what it needs. */
  ghost predicate Good(script: seq<Statement>) {
    forall cat, n: nat | n < |script| && OnTheWay(cat) && DoneUpTo(cat, script, n) :: Ready(cat, script[n]) && Known(script[n])
  }

  /** A table that is there has its base columns. */
  lemma BaseIsThere(cat: Catalog, t: TableName)
    requires OnTheWay(cat)
    ensures t in cat.tables ==> Base(t) <= cat.tables[t].Keys
  {
    assert t in cat.tables ==> Partial(t, cat.tables[t]);
  }

  /** What the indexes need. */
  lemma BaseIndexed(name: IndexName)
    ensures IndexOf(name).table == Jobs || IndexOf(name).table == Executions
    ensures IndexOf(name).column in Base(IndexOf(name).table) || name == ByUserId
  {
    assert Status in Base(Jobs) && JobId in Base(Executions) && StartedAt in Base(Executions);
  }

  lemma IndexedIsThere(cat: Catalog, name: IndexName)
    requires OnTheWay(cat) && Jobs in cat.tables && Executions in cat.tables
    requires name == ByUserId ==> UserId in cat.tables[Jobs]
    ensures IndexOf(name).table in cat.tables && IndexOf(name).column in cat.tables[IndexOf(name).table]
  {
    BaseIndexed(name);
    BaseIsThere(cat, IndexOf(name).table);
  }

  /** The only foreign keys. */
  lemma References(t: TableName, c: ColumnName)
    ensures DefOf(t, c).refs.Some? ==>
              (t == Jobs && c == UserId && DefOf(t, c).refs.value == Users) || (t == Executions && c == JobId && DefOf(t, c).refs.value == Jobs)
  {
  }

  lemma CreateIsReady(cat: Catalog, t: TableName, extra: set<ColumnName>)
    requires cat.pgcrypto
    requires t == Jobs && UserId in extra ==> Users in cat.tables
    requires t == Executions ==> Jobs in cat.tables
    ensures Ready(cat, Create(t, extra))
  {
    forall c | c in Base(t) + extra && DefOf(t, c).refs.Some?
      ensures DefOf(t, c).refs.value in cat.tables
    {
      References(t, c);
    }
  }

  lemma CreateIsKnown(t: TableName, extra: set<ColumnName>)
    requires extra <= Added(t)
    ensures Known(Create(t, extra))
  {
    assert Table(t, Base(t) + extra).Keys == Base(t) + extra;
  }

  /** What the statements before the `n`-th of the API's script provide. */
  lemma ApiProvides(cat: Catalog, n: nat)
    requires n <= |ApiScript()| && DoneUpTo(cat, ApiScript(), n)
    ensures n > 0 ==> cat.pgcrypto
    ensures n > 1 ==> Users in cat.tables
    ensures n > 3 ==> Jobs in cat.tables
    ensures n > 4 ==> UserId in cat.tables[Jobs]
    ensures n > 5 ==> Executions in cat.tables
  {
    if n > 0 { assert Done(cat, ApiScript()[0]); }
    if n > 1 { assert Done(cat, ApiScript()[1]); }
    if n > 3 { assert Done(cat, ApiScript()[3]); }
    if n > 4 { assert Done(cat, ApiScript()[4]); }
    if n > 5 { assert Done(cat, ApiScript()[5]); }
  }

  lemma AlterIsReady(cat: Catalog, t: TableName, c: ColumnName)
    requires t in cat.tables && c in Added(t) && (c == UserId ==> Users in cat.tables)
    ensures Ready(cat, Alter(t, c)) && Known(Alter(t, c))
  {
    References(t, c);
    assert t == Users ==> c == Role;
  }

  lemma ApiCreates(cat: Catalog, n: nat)
    requires (n == 1 || n == 3 || n == 5) && DoneUpTo(cat, ApiScript(), n)
    ensures Ready(cat, ApiScript()[n]) && Known(ApiScript()[n])
  {
    ApiProvides(cat, n);
    if n == 1 {
      CreateIsReady(cat, Users, {Role}); CreateIsKnown(Users, {Role});
    } else if n == 3 {
      CreateIsReady(cat, Jobs, {UserId}); CreateIsKnown(Jobs, {UserId});
    } else {
      CreateIsReady(cat, Executions, {CancelRequested}); CreateIsKnown(Executions, {CancelRequested});
    }
  }

  lemma ApiAlters(cat: Catalog, n: nat)
    requires (n == 2 || n == 6) && DoneUpTo(cat, ApiScript(), n)
    ensures Ready(cat, ApiScript()[n]) && Known(ApiScript()[n])
  {
    ApiProvides(cat, n);
    if n == 2 { AlterIsReady(cat, Users, Role); } else { AlterIsReady(cat, Executions, CancelRequested); }
  }

  lemma ApiAltersJobs(cat: Catalog, n: nat)
    requires (n == 4 || n == 7) && DoneUpTo(cat, ApiScript(), n)
    ensures Ready(cat, ApiScript()[n]) && Known(ApiScript()[n])
  {
    ApiProvides(cat, n);
    AlterIsReady(cat, Jobs, if n == 4 then UserId else ConcurrencyPolicy);
  }

  lemma IndexIsReady(cat: Catalog, name: IndexName)
    requires IndexOf(name).table in cat.tables && IndexOf(name).column in cat.tables[IndexOf(name).table]
    ensures Ready(cat, CreateIndex(name, IndexOf(name))) && Known(CreateIndex(name, IndexOf(name)))
  {
  }

  /** The statement and the index it creates. */
  lemma ApiIndexAt(n: nat)
    requires 8 <= n < |ApiScript()|
    ensures ApiScript()[n].CreateIndex? && ApiScript()[n].index == IndexOf(ApiScript()[n].name)
    ensures ApiScript()[n].name == if n == 8 then ByJobId else if n == 9 then ByStarted else if n == 10 then ByStatus else ByUserId
  {
    assert ApiScript()[n] == ApiStatement(n);
    assert n == 8 || n == 9 || n == 10 || n == 11;
  }

  lemma ApiIndexedColumn(cat: Catalog, n: nat)
    requires 8 <= n < |ApiScript()| && OnTheWay(cat) && DoneUpTo(cat, ApiScript(), n)
    ensures ApiScript()[n].CreateIndex?
    ensures var index := IndexOf(ApiScript()[n].name); index.table in cat.tables && index.column in cat.tables[index.table]
  {
    ApiIndexAt(n);
    ApiProvides(cat, n);
    IndexedIsThere(cat, ApiScript()[n].name);
  }

  lemma ApiIndexes(cat: Catalog, n: nat)
    requires 8 <= n < |ApiScript()| && OnTheWay(cat) && DoneUpTo(cat, ApiScript(), n)
    ensures Ready(cat, ApiScript()[n]) && Known(ApiScript()[n])
  {
    ApiIndexedColumn(cat, n);
    ApiIndexAt(n);
    IndexIsReady(cat, ApiScript()[n].name);
  }

  lemma {:induction false} ApiIsGood()
    ensures Good(ApiScript())
  {
    forall cat, n: nat | n < |ApiScript()| && OnTheWay(cat) && DoneUpTo(cat, ApiScript(), n)
      ensures Ready(cat, ApiScript()[n]) && Known(ApiScript()[n])
    {
      if n == 0 {
      } else if n == 1 || n == 3 || n == 5 {
        ApiCreates(cat, n);
      } else if n == 2 || n == 6 {
        ApiAlters(cat, n);
      } else if n < 8 {
        ApiAltersJobs(cat, n);
      } else {
        ApiIndexes(cat, n);
      }
    }
  }

  lemma WorkerProvides(cat: Catalog, n: nat)
    requires n <= |WorkerScript()| && DoneUpTo(cat, WorkerScript(), n)
    ensures n > 0 ==> cat.pgcrypto
    ensures n > 1 ==> Jobs in cat.tables
    ensures n > 2 ==> Executions in cat.tables
  {
    if n > 0 { assert Done(cat, WorkerScript()[0]); }
    if n > 1 { assert Done(cat, WorkerScript()[1]); }
    if n > 2 { assert Done(cat, WorkerScript()[2]); }
  }

  lemma WorkerCreates(cat: Catalog, n: nat)
    requires (n == 1 || n == 2) && DoneUpTo(cat, WorkerScript(), n)
    ensures Ready(cat, WorkerScript()[n]) && Known(WorkerScript()[n])
  {
    WorkerProvides(cat, n);
    if n == 1 {
      CreateIsReady(cat, Jobs, {}); CreateIsKnown(Jobs, {});
    } else {
      CreateIsReady(cat, Executions, {CancelRequested}); CreateIsKnown(Executions, {CancelRequested});
    }
  }

  lemma WorkerAlters(cat: Catalog, n: nat)
    requires (n == 3 || n == 4) && DoneUpTo(cat, WorkerScript(), n)
    ensures Ready(cat, WorkerScript()[n]) && Known(WorkerScript()[n])
  {
    WorkerProvides(cat, n);
    if n == 3 { AlterIsReady(cat, Jobs, ConcurrencyPolicy); } else { AlterIsReady(cat, Executions, CancelRequested); }
  }

  lemma WorkerIndexAt(n: nat)
    requires 5 <= n < |WorkerScript()|
    ensures WorkerScript()[n].CreateIndex? && WorkerScript()[n].index == IndexOf(WorkerScript()[n].name)
    ensures WorkerScript()[n].name == if n == 5 then ByJobId else if n == 6 then ByStarted else ByStatus
  {
    assert WorkerScript()[n] == WorkerStatement(n);
    assert n == 5 || n == 6 || n == 7;
  }

  lemma WorkerIndexedColumn(cat: Catalog, n: nat)
    requires 5 <= n < |WorkerScript()| && OnTheWay(cat) && DoneUpTo(cat, WorkerScript(), n)
    ensures WorkerScript()[n].CreateIndex?
    ensures var index := IndexOf(WorkerScript()[n].name); index.table in cat.tables && index.column in cat.tables[index.table]
  {
    WorkerIndexAt(n);
    WorkerProvides(cat, n);
    IndexedIsThere(cat, WorkerScript()[n].name);
  }

  lemma WorkerIndexes(cat: Catalog, n: nat)
    requires 5 <= n < |WorkerScript()| && OnTheWay(cat) && DoneUpTo(cat, WorkerScript(), n)
    ensures Ready(cat, WorkerScript()[n]) && Known(WorkerScript()[n])
  {
    WorkerIndexedColumn(cat, n);
    WorkerIndexAt(n);
    IndexIsReady(cat, WorkerScript()[n].name);
  }

  lemma {:induction false} WorkerIsGood()
    ensures Good(WorkerScript())
  {
    forall cat, n: nat | n < |WorkerScript()| && OnTheWay(cat) && DoneUpTo(cat, WorkerScript(), n)
      ensures Ready(cat, WorkerScript()[n]) && Known(WorkerScript()[n])
    {
      if n == 0 {
      } else if n < 3 {
        WorkerCreates(cat, n);
      } else if n < 5 {
        WorkerAlters(cat, n);
      } else {
        WorkerIndexes(cat, n);
      }
    }
  }

  lemma TablesFinal(cat: Catalog)
    requires OnTheWay(cat)
    requires forall t: TableName :: t in cat.tables && Added(t) <= cat.tables[t].Keys
    ensures cat.tables == FINAL.tables
  {
    forall t: TableName
      ensures cat.tables[t] == Full(t)
    {
      assert Partial(t, cat.tables[t]);
    }
    forall t: TableName ensures t in FINAL.tables { assert t == Users || t == Jobs || t == Executions; }
  }

  lemma ApiReachesFinal(cat: Catalog)
    requires OnTheWay(cat) && DoneUpTo(cat, ApiScript(), |ApiScript()|)
    ensures cat == FINAL
  {
    ApiAdds(cat);
    TablesFinal(cat);
    assert cat.indexes == FINAL.indexes;
  }

  /** The schema every start-up leads to: its tables, */
  lemma FinalTables()
    ensures FINAL.pgcrypto && FINAL.tables == map[Users := Full(Users), Jobs := Full(Jobs), Executions := Full(Executions)]
  {
  }

  /** its indexes, */
  lemma FinalIndexes()
    ensures FINAL.indexes == map[ByJobId := Index(Executions, JobId, false), ByStarted := Index(Executions, StartedAt, true),
                                 ByStatus := Index(Jobs, Status, false), ByUserId := Index(Jobs, UserId, false)]
  {
  }

  /** the columns of the tables, */
  lemma FinalColumns(t: TableName)
    ensures Full(t).Keys ==
              match t
              case Users => {Id, Email, PasswordHash, Role, CreatedAt}
              case Jobs => {Id, UserId, Name, Description, CronExpression, Url, Verb, Headers, Body, Status, Timezone,
                            TimeoutSeconds, LastRunAt, ConcurrencyPolicy, CreatedAt, UpdatedAt}
              case Executions => {Id, JobId, Status, TriggeredBy, StartedAt, CompletedAt, DurationMs, ResponseStatus,
                                  ResponseBody, ErrorMessage, CancelRequested}
  {
    assert Full(t).Keys == Base(t) + Added(t);
  }

  /** and their constraints: unique, not null, and foreign keys. */
  lemma UsersConstraints(c: ColumnName)
    requires c in Base(Users) + Added(Users)
    ensures DefOf(Users, c).unique == (c in {Id, Email})
    ensures DefOf(Users, c).notNull == (c in {Id, Email, PasswordHash, Role})
    ensures DefOf(Users, c).refs == None
  {
  }

  lemma JobsConstraints(c: ColumnName)
    requires c in Base(Jobs) + Added(Jobs)
    ensures DefOf(Jobs, c).unique == (c == Id)
    ensures DefOf(Jobs, c).notNull == (c in {Id, Name, CronExpression, Url, Verb, Status, ConcurrencyPolicy})
    ensures DefOf(Jobs, c).refs == if c == UserId then Some(Users) else None
  {
  }

  lemma ExecutionsConstraints(c: ColumnName)
    requires c in Base(Executions) + Added(Executions)
    ensures DefOf(Executions, c).unique == (c == Id)
    ensures DefOf(Executions, c).notNull == (c in {Id, JobId, Status, StartedAt, CancelRequested})
    ensures DefOf(Executions, c).refs == if c == JobId then Some(Jobs) else None
  {
  }

  lemma FullIs(t: TableName, c: ColumnName)
    ensures c in Full(t) <==> c in Base(t) + Added(t)
    ensures c in Full(t) ==> Full(t)[c] == DefOf(t, c)
  {
  }

  lemma CreateNeeds(cat: Catalog, t: TableName, extra: set<ColumnName>)
    ensures Ready(cat, Create(t, extra)) <==>
              && cat.pgcrypto
              && (t == Jobs && UserId in extra ==> Users in cat.tables)
              && (t == Executions ==> Jobs in cat.tables)
  {
    var columns := Create(t, extra).columns;
    if Ready(cat, Create(t, extra)) {
      if t == Jobs && UserId in extra { assert UserId in columns; }
      if t == Executions { assert JobId in columns; }
    } else if cat.pgcrypto && (t == Jobs && UserId in extra ==> Users in cat.tables) && (t == Executions ==> Jobs in cat.tables) {
      CreateIsReady(cat, t, extra);
    }
  }

  /** What the statements of the two scripts need to find: a table needs the extension and
      the tables it refers to, which for jobs differ between the scripts, and the index on
      user_id the column the API adds. */
  lemma ScriptNeeds(cat: Catalog)
    ensures Ready(cat, ApiScript()[1]) <==> cat.pgcrypto
    ensures Ready(cat, ApiScript()[3]) <==> cat.pgcrypto && Users in cat.tables
    ensures Ready(cat, ApiScript()[4]) <==> Jobs in cat.tables && Users in cat.tables
    ensures Ready(cat, ApiScript()[5]) <==> cat.pgcrypto && Jobs in cat.tables
    ensures Ready(cat, ApiScript()[11]) <==> Jobs in cat.tables && UserId in cat.tables[Jobs]
    ensures Ready(cat, WorkerScript()[1]) <==> cat.pgcrypto
    ensures Ready(cat, WorkerScript()[2]) <==> cat.pgcrypto && Jobs in cat.tables
  {
    CreateNeeds(cat, Users, {Role});
    CreateNeeds(cat, Jobs, {UserId});
    CreateNeeds(cat, Jobs, {});
    CreateNeeds(cat, Executions, {CancelRequested});
  }

  lemma ApiAdds(cat: Catalog)
    requires DoneUpTo(cat, ApiScript(), |ApiScript()|)
    ensures cat.pgcrypto
    ensures forall t: TableName :: t in cat.tables && Added(t) <= cat.tables[t].Keys
    ensures forall n: IndexName :: n in cat.indexes && n in FINAL.indexes
  {
    ApiProvides(cat, 12);
    assert Done(cat, ApiScript()[2]) && Done(cat, ApiScript()[6]) && Done(cat, ApiScript()[7]);
    assert Done(cat, ApiScript()[8]) && Done(cat, ApiScript()[9]) && Done(cat, ApiScript()[10]) && Done(cat, ApiScript()[11]);
    forall t: TableName
      ensures t in cat.tables && Added(t) <= cat.tables[t].Keys
    {
      assert t == Users || t == Jobs || t == Executions;
    }
    forall n: IndexName ensures n in cat.indexes && n in FINAL.indexes { assert n == ByJobId || n == ByStarted || n == ByStatus || n == ByUserId; }
  }

  /** The next statement of a script, run on a catalog its earlier ones have prepared. */
  lemma GoodStep(cat: Catalog, script: seq<Statement>, n: nat)
    requires OnTheWay(cat) && Good(script) && n < |script| && DoneUpTo(cat, script, n)
    ensures Ready(cat, script[n])
    ensures OnTheWay(Apply(cat, script[n])) && DoneUpTo(Apply(cat, script[n]), script, n + 1)
  {
    ApplyKeepsTheWay(cat, script[n]);
    DoneStays(cat, script[n], script, n);
    ApplyOnlyAdds(cat, script[n], script[n]);
  }

  lemma DoneStays(cat: Catalog, st: Statement, script: seq<Statement>, n: nat)
    requires n <= |script| && DoneUpTo(cat, script, n)
    ensures DoneUpTo(Apply(cat, st), script, n)
  {
    forall k | 0 <= k < n ensures Done(Apply(cat, st), script[k]) { ApplyOnlyAdds(cat, st, script[k]); }
  }

  // ---- any number of start-ups, interleaved statement by statement ----

  /** `plan[k]` is the start-up that runs its next statement at step `k`. */
  ghost predicate Legal(scripts: seq<seq<Statement>>, plan: seq<nat>) {
    && (forall k | 0 <= k < |plan| :: plan[k] < |scripts|)
    && (forall i | 0 <= i < |scripts| :: Turns(plan, i) <= |scripts[i]|)
  }

  /** Statements start-up `i` has run. */
  function Turns(plan: seq<nat>, i: nat): nat {
    if plan == [] then 0 else Turns(plan[..|plan| - 1], i) + if plan[|plan| - 1] == i then 1 else 0
  }

  ghost predicate AllDone(scripts: seq<seq<Statement>>, plan: seq<nat>) {
    forall i | 0 <= i < |scripts| :: Turns(plan, i) == |scripts[i]|
  }

  lemma LegalPrefix(scripts: seq<seq<Statement>>, plan: seq<nat>)
    requires Legal(scripts, plan) && plan != []
    ensures Legal(scripts, plan[..|plan| - 1])
    ensures plan[|plan| - 1] < |scripts|
    ensures Turns(plan[..|plan| - 1], plan[|plan| - 1]) < |scripts[plan[|plan| - 1]]|
  {
    forall i | 0 <= i < |scripts|
      ensures Turns(plan[..|plan| - 1], i) <= |scripts[i]|
    {
      assert Turns(plan, i) <= |scripts[i]|;
    }
    assert Turns(plan, plan[|plan| - 1]) <= |scripts[plan[|plan| - 1]]|;
  }

  /** The statement the last step of the plan runs. */
  ghost function LastStatement(scripts: seq<seq<Statement>>, plan: seq<nat>): Statement
    requires Legal(scripts, plan) && plan != []
  {
    LegalPrefix(scripts, plan);
    scripts[plan[|plan| - 1]][Turns(plan[..|plan| - 1], plan[|plan| - 1])]
  }

  ghost function After(cat: Catalog, scripts: seq<seq<Statement>>, plan: seq<nat>): Catalog
    requires Legal(scripts, plan)
  {
    if plan == [] then cat
    else
      LegalPrefix(scripts, plan);
      Apply(After(cat, scripts, plan[..|plan| - 1]), LastStatement(scripts, plan))
  }

  ghost predicate AllGood(scripts: seq<seq<Statement>>) {
    forall i | 0 <= i < |scripts| :: Good(scripts[i])
  }

  lemma {:induction false} PlanInvariant(cat: Catalog, scripts: seq<seq<Statement>>, plan: seq<nat>)
    requires OnTheWay(cat) && AllGood(scripts) && Legal(scripts, plan)
    ensures OnTheWay(After(cat, scripts, plan))
    ensures forall i | 0 <= i < |scripts| :: DoneUpTo(After(cat, scripts, plan), scripts[i], Turns(plan, i))
  {
    if plan != [] {
      var before, i := plan[..|plan| - 1], plan[|plan| - 1];
      LegalPrefix(scripts, plan);
      PlanInvariant(cat, scripts, before);
      var mid, st := After(cat, scripts, before), LastStatement(scripts, plan);
      assert Good(scripts[i]) && DoneUpTo(mid, scripts[i], Turns(before, i));
      GoodStep(mid, scripts[i], Turns(before, i));
      forall j | 0 <= j < |scripts|
        ensures DoneUpTo(Apply(mid, st), scripts[j], Turns(plan, j))
      {
        if j != i { DoneStays(mid, st, scripts[j], Turns(before, j)); }
      }
    }
  }

  lemma ScriptsAreGood(scripts: seq<seq<Statement>>)
    requires forall i | 0 <= i < |scripts| :: IsScript(scripts[i])
    ensures AllGood(scripts)
  {
    ApiIsGood();
    WorkerIsGood();
    forall i | 0 <= i < |scripts| ensures Good(scripts[i]) { assert IsScript(scripts[i]); }
  }

  /** Whatever the interleaving, every statement finds what it needs. */
  lemma {:induction false} EveryStatementIsReady(cat: Catalog, scripts: seq<seq<Statement>>, plan: seq<nat>)
    requires OnTheWay(cat) && (forall i | 0 <= i < |scripts| :: IsScript(scripts[i])) && Legal(scripts, plan) && plan != []
    ensures Legal(scripts, plan[..|plan| - 1])
    ensures Ready(After(cat, scripts, plan[..|plan| - 1]), LastStatement(scripts, plan))
  {
    LegalPrefix(scripts, plan);
    ScriptsAreGood(scripts);
    PlanInvariant(cat, scripts, plan[..|plan| - 1]);
    var mid, i := After(cat, scripts, plan[..|plan| - 1]), plan[|plan| - 1];
    GoodStep(mid, scripts[i], Turns(plan[..|plan| - 1], i));
  }

  /** Confluence: any number of complete start-ups of the two services, at least one of
      them the API's, in any statement-level interleaving and from any catalog on the
      way, end in the same tables, columns and indexes. */
  lemma StartUpsConverge(cat: Catalog, scripts: seq<seq<Statement>>, plan: seq<nat>)
    requires OnTheWay(cat) && (forall i | 0 <= i < |scripts| :: IsScript(scripts[i])) && Legal(scripts, plan)
    requires AllDone(scripts, plan) && ApiScript() in scripts
    ensures After(cat, scripts, plan) == FINAL
  {
    ScriptsAreGood(scripts);
    PlanInvariant(cat, scripts, plan);
    var i :| 0 <= i < |scripts| && scripts[i] == ApiScript();
    assert DoneUpTo(After(cat, scripts, plan), scripts[i], Turns(plan, i));
    ApiReachesFinal(After(cat, scripts, plan));
  }

  lemma WorkerLeavesUsers(n: nat)
    requires n < |WorkerScript()|
    ensures WorkerScript()[n].CreateTable? ==> WorkerScript()[n].table != Users
  {
    assert n == 0 || n == 1 || n == 2 || n == 3 || n == 4 || n == 5 || n == 6 || n == 7;
  }

  /** The worker alone does not get there, however often it starts: the users table is
      the API's. */
  lemma {:induction false} WorkerAloneStopsShort(scripts: seq<seq<Statement>>, plan: seq<nat>)
    requires Legal(scripts, plan) && forall i | 0 <= i < |scripts| :: scripts[i] == WorkerScript()
    ensures Users !in After(EMPTY, scripts, plan).tables
  {
    if plan != [] {
      LegalPrefix(scripts, plan);
      WorkerAloneStopsShort(scripts, plan[..|plan| - 1]);
      WorkerLeavesUsers(Turns(plan[..|plan| - 1], plan[|plan| - 1]));
    }
  }

  // ---- runSchema ----

  function ApplyAll(cat: Catalog, script: seq<Statement>): Catalog {
    if script == [] then cat else Apply(ApplyAll(cat, script[..|script| - 1]), script[|script| - 1])
  }

  class Database {
    var cat: Catalog

    constructor (cat: Catalog)
      ensures this.cat == cat
    {
      this.cat := cat;
    }

    /** Runs the statements in order and stops at the first one that fails. */
    method RunSchema(script: seq<Statement>) returns (ok: bool)
      modifies this
      ensures ok ==> cat == ApplyAll(old(cat), script)
      ensures !ok ==> exists n :: 0 <= n < |script| && cat == ApplyAll(old(cat), script[..n]) && !Ready(cat, script[n])
    {
      for k := 0 to |script|
        invariant cat == ApplyAll(old(cat), script[..k])
      {
        if !Ready(cat, script[k]) {
          return false;
        }
        cat := Apply(cat, script[k]);
        assert script[..k + 1][..k] == script[..k];
      }
      assert script[..|script|] == script;
      return true;
    }

    /** A start-up on its own never fails, and the API's completes the schema. */
    method StartUp(script: seq<Statement>)
      requires OnTheWay(cat) && IsScript(script)
      modifies this
      ensures OnTheWay(cat) && (script == ApiScript() ==> cat == FINAL)
    {
      ghost var start := cat;
      ScriptsAreGood([script]);
      assert Good([script][0]);
      var ok := RunSchema(script);
      if !ok {
        ghost var n :| 0 <= n < |script| && cat == ApplyAll(start, script[..n]) && !Ready(cat, script[n]);
        SoloInvariant(start, script, n);
        GoodStep(cat, script, n);
      }
      SoloInvariant(start, script, |script|);
      assert script[..|script|] == script;
      if script == ApiScript() { ApiReachesFinal(cat); }
    }
  }

  lemma {:induction false} SoloInvariant(cat: Catalog, script: seq<Statement>, n: nat)
    requires OnTheWay(cat) && n <= |script| && Good(script)
    ensures OnTheWay(ApplyAll(cat, script[..n])) && DoneUpTo(ApplyAll(cat, script[..n]), script, n)
  {
    if n > 0 {
      SoloInvariant(cat, script, n - 1);
      assert script[..n][..n - 1] == script[..n - 1];
      GoodStep(ApplyAll(cat, script[..n - 1]), script, n - 1);
    }
  }
}
