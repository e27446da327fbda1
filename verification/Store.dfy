/** The registry's tables as a value: admission of records, status updates and indexed lookup. */
module Store {
  import opened Common
  import opened Domain

  datatype Error = Duplicate | MissingReference | Invalid | NotFound | Concurrent | Busy

  datatype Cell = IdCell(id: Id) | TextCell(text: string) | NumberCell(number: nat)

  datatype Kind = Experiments | Runs | Provenances | Outcomes | Observations | Artifacts
                | ScheduleUnits | ScheduleRuns | Attempts | Others(name: string)

  /** A row: the stored record and its indexed columns (`None` is NULL). */
  datatype Row = Row(payload: Entity, columns: map<string, Option<Cell>>)

  /** All tables; `order` is the order of insertion. */
  datatype Tables = Tables(order: seq<Id>, rows: map<Id, Row>)

  const EMPTY := Tables([], map[])

  function KindOf(e: Entity): Kind {
    match e
    case Experiment(_, _, _, _, _) => Experiments
    case Run(_, _, _, _, _, _) => Runs
    case Provenance(_, _, _, _, _, _, _, _) => Provenances
    case Outcome(_, _, _, _, _, _) => Outcomes
    case Observation(_, _, _, _, _) => Observations
    case Artifact(_, _, _, _) => Artifacts
    case ScheduleUnit(_, _, _, _) => ScheduleUnits
    case ScheduleRun(_, _, _, _) => ScheduleRuns
    case Attempt(_, _, _, _, _) => Attempts
    case Other(kind, _, _) => Others(kind)
  }

  function ColumnNames(k: Kind): set<string> {
    match k
    case Experiments => {"investigation_id", "configuration_id", "status"}
    case Runs => {"experiment_id", "environment_id", "status"}
    case Provenances => {"run_id", "experiment_id", "environment_id", "configuration_id", "replay_of"}
    case Outcomes => {"run_id", "status"}
    case Observations => {"run_id"}
    case Artifacts => {"run_id"}
    case ScheduleUnits => {"schedule_id", "unit_key", "status"}
    case ScheduleRuns => {"schedule_id", "investigation_id", "sequence"}
    case Attempts => {"unit_id", "schedule_run_id", "run_id", "attempt", "outcome"}
    case Others(_) => {}
  }

  function IdColumn(id: Id): Option<Cell> { Some(IdCell(id)) }

  function OptionalColumn(id: Option<Id>): Option<Cell> { if id.Some? then Some(IdCell(id.value)) else None }

  function RunStatusText(s: RunStatus): Option<Cell> {
    match s
    case Pending => Some(TextCell("PENDING"))
    case Running => Some(TextCell("RUNNING"))
    case Completed => Some(TextCell("COMPLETED"))
    case Failed => Some(TextCell("FAILED"))
  }

  function ExperimentStatusText(s: ExperimentStatus): Option<Cell> {
    match s
    case Draft => Some(TextCell("DRAFT"))
    case Ready => Some(TextCell("READY"))
    case Executing => Some(TextCell("RUNNING"))
    case Done => Some(TextCell("COMPLETED"))
    case Broken => Some(TextCell("FAILED"))
    case Cancelled => Some(TextCell("CANCELLED"))
  }

  function UnitStateText(s: UnitState): Option<Cell> {
    match s
    case Planned => Some(TextCell("PLANNED"))
    case Queued => Some(TextCell("READY"))
    case InProgress => Some(TextCell("RUNNING"))
    case Succeeded => Some(TextCell("SUCCEEDED"))
    case UnitFailed => Some(TextCell("FAILED"))
    case TimedOut => Some(TextCell("TIMED_OUT"))
    case RetryPending => Some(TextCell("RETRY_PENDING"))
    case Blocked => Some(TextCell("BLOCKED"))
    case Skipped => Some(TextCell("SKIPPED"))
    case UnitCancelled => Some(TextCell("CANCELLED"))
  }

  /** The value of an entity's own field, by column name. */
  function ColumnValue(e: Entity, c: string): Option<Cell> {
    match e
    case Experiment(_, inv, cfg, _, s) =>
      if c == "investigation_id" then IdColumn(inv)
      else if c == "configuration_id" then IdColumn(cfg)
      else ExperimentStatusText(s)
    case Run(x, env, _, _, _, s) =>
      if c == "experiment_id" then IdColumn(x) else if c == "environment_id" then IdColumn(env) else RunStatusText(s)
    case Provenance(run, x, env, cfg, _, _, _, replayOf) =>
      if c == "run_id" then IdColumn(run)
      else if c == "experiment_id" then IdColumn(x)
      else if c == "environment_id" then IdColumn(env)
      else if c == "configuration_id" then IdColumn(cfg)
      else OptionalColumn(replayOf)
    case Outcome(run, _, s, _, _, _) => if c == "run_id" then IdColumn(run) else RunStatusText(s)
    case Observation(run, _, _, _, _) => IdColumn(run)
    case Artifact(run, _, _, _) => IdColumn(run)
    case ScheduleUnit(key, schedule, _, s) =>
      if c == "schedule_id" then IdColumn(schedule)
      else if c == "unit_key" then Some(TextCell(key))
      else UnitStateText(s)
    case ScheduleRun(_, schedule, inv, n) =>
      if c == "schedule_id" then IdColumn(schedule)
      else if c == "investigation_id" then IdColumn(inv)
      else Some(NumberCell(n))
    case Attempt(unit, sr, n, executed, s) =>
      if c == "unit_id" then IdColumn(unit)
      else if c == "schedule_run_id" then IdColumn(sr)
      else if c == "run_id" then OptionalColumn(executed)
      else if c == "attempt" then Some(NumberCell(n))
      else UnitStateText(s)
    case Other(_, _, _) => None
  }

  function ColumnsOf(e: Entity): map<string, Option<Cell>> {
    map c | c in ColumnNames(KindOf(e)) :: ColumnValue(e, c)
  }

  // Lookup --------------------------------------------------------------------------------------

  predicate Matches(columns: map<string, Option<Cell>>, filters: map<string, Cell>) {
    forall c | c in filters :: c in columns && columns[c] == Some(filters[c])
  }

  /** Records of a kind whose indexed columns equal the filters; a NULL column equals nothing. */
  function Select(t: Tables, k: Kind, filters: map<string, Cell>): map<Id, Entity> {
    map id | id in t.rows && KindOf(t.rows[id].payload) == k && Matches(t.rows[id].columns, filters)
        :: t.rows[id].payload
  }

  function Find(t: Tables, k: Kind, filters: map<string, Cell>): Result<map<Id, Entity>, Error> {
    if filters.Keys <= ColumnNames(k) then Ok(Select(t, k, filters)) else Err(Invalid)
  }

  predicate RunIs(t: Tables, id: Id) { id in t.rows && t.rows[id].payload.Run? }

  function ByRun(run: Id): map<string, Cell> { map["run_id" := IdCell(run)] }

  // Admission -----------------------------------------------------------------------------------

  function CheckProvenance(t: Tables, p: Entity): Option<Error>
    requires p.Provenance?
  {
    if !RunIs(t, p.run) then Some(NotFound)
    else
      var run := t.rows[p.run].payload;
      if run.experiment !in t.rows || !t.rows[run.experiment].payload.Experiment? then Some(NotFound)
      else
        var exp := t.rows[run.experiment].payload;
        if (run.experiment, run.environment, run.seed) != (p.experiment, p.environment, p.seed)
           || exp.configuration != p.configuration then Some(Invalid)
        else if run.status != Pending then Some(Invalid)
        else if p.replayOf.Some? then
          if !RunIs(t, p.replayOf.value) then Some(NotFound)
          else if t.rows[p.replayOf.value].payload.experiment != run.experiment then Some(Invalid)
          else None
        else None
  }

  function CheckOutcome(t: Tables, o: Entity): Option<Error>
    requires o.Outcome?
  {
    if !RunIs(t, o.run) then Some(NotFound)
    else
      var run := t.rows[o.run].payload;
      if !RunMove(run.status, o.result) then Some(Invalid)
      else if exists a | a in o.artifactIds :: a !in t.rows then Some(MissingReference)
      else if exists a | a in o.artifactIds :: !(t.rows[a].payload.Artifact? && t.rows[a].payload.run == o.run) then Some(Invalid)
      else if run.status == Running && |Select(t, Provenances, ByRun(o.run))| == 0 then Some(Invalid)
      else if |Select(t, Observations, ByRun(o.run))| != o.observationCount then Some(Invalid)
      else None
  }

  function CheckAttempt(t: Tables, a: Entity): Option<Error>
    requires a.Attempt?
  {
    if a.unit !in t.rows || a.scheduleRun !in t.rows then Some(NotFound)
    else
      var unit, sr := t.rows[a.unit].payload, t.rows[a.scheduleRun].payload;
      if !unit.ScheduleUnit? || !sr.ScheduleRun? then Some(NotFound)
      else if unit.schedule != sr.schedule then Some(Invalid)
      else if a.attempt != |Select(t, Attempts, map["unit_id" := IdCell(a.unit)])| then Some(Invalid)
      else None
  }

  function CheckKind(t: Tables, e: Entity): Option<Error> {
    match e
    case Provenance(_, _, _, _, _, _, _, _) => CheckProvenance(t, e)
    case Outcome(_, _, _, _, _, _) => CheckOutcome(t, e)
    case Attempt(_, _, _, _, _) => CheckAttempt(t, e)
    case _ => None
  }

  /** Why the record is refused, if it is. */
  function Refusal(t: Tables, e: Entity): Option<Error> {
    if !WellFormed(e) then Some(Invalid)
    else if IdOf(e) in t.rows then Some(Duplicate)
    else if !(Refs(e) <= t.rows.Keys) then Some(MissingReference)
    else CheckKind(t, e)
  }

  function Insert(t: Tables, e: Entity): Tables {
    Tables(t.order + [IdOf(e)], t.rows[IdOf(e) := Row(e, ColumnsOf(e))])
  }

  function AddTo(t: Tables, e: Entity): Result<Tables, Error> {
    var refusal := Refusal(t, e);
    if refusal.Some? then Err(refusal.value) else Ok(Insert(t, e))
  }

  /** Only the status may change, along a legal transition, and only if the stored status column is
      still the one that was read. */
  function UpdateStatus(t: Tables, next: Entity): Result<Tables, Error> {
    var id := IdOf(next);
    if id !in t.rows then Err(NotFound)
    else
      var row := t.rows[id];
      if !StatusStep(row.payload, next) then Err(Invalid)
      else if !("status" in row.columns && row.columns["status"] == ColumnValue(row.payload, "status")) then Err(Concurrent)
      else
        Ok(t.(rows := t.rows[id := Row(next, row.columns["status" := ColumnValue(next, "status")])]))
  }
}
