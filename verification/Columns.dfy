/** What indexed lookup finds, column by column, in the records' own fields. */
module Columns {
  import opened Common
  import opened Domain
  import opened Store
  import opened RegistryLaws

  ghost predicate IsKind(e: Entity, k: Kind) {
    match k
    case Experiments => e.Experiment?
    case Runs => e.Run?
    case Provenances => e.Provenance?
    case Outcomes => e.Outcome?
    case Observations => e.Observation?
    case Artifacts => e.Artifact?
    case ScheduleUnits => e.ScheduleUnit?
    case ScheduleRuns => e.ScheduleRun?
    case Attempts => e.Attempt?
    case Others(name) => e.Other? && e.kind == name
  }

  /** The columns a table can be searched by. */
  ghost predicate HasColumn(k: Kind, c: string) {
    match k
    case Experiments => c == "investigation_id" || c == "configuration_id" || c == "status"
    case Runs => c == "experiment_id" || c == "environment_id" || c == "status"
    case Provenances =>
      c == "run_id" || c == "experiment_id" || c == "environment_id" || c == "configuration_id" || c == "replay_of"
    case Outcomes => c == "run_id" || c == "status"
    case Observations => c == "run_id"
    case Artifacts => c == "run_id"
    case ScheduleUnits => c == "schedule_id" || c == "unit_key" || c == "status"
    case ScheduleRuns => c == "schedule_id" || c == "investigation_id" || c == "sequence"
    case Attempts => c == "unit_id" || c == "schedule_run_id" || c == "run_id" || c == "attempt" || c == "outcome"
    case Others(_) => false
  }

  ghost predicate RunStatusIs(s: RunStatus, text: string) {
    && (s == Pending ==> text == "PENDING") && (s == Running ==> text == "RUNNING")
    && (s == Completed ==> text == "COMPLETED") && (s == Failed ==> text == "FAILED")
  }

  ghost predicate ExperimentStatusIs(s: ExperimentStatus, text: string) {
    && (s == Draft ==> text == "DRAFT") && (s == Ready ==> text == "READY") && (s == Executing ==> text == "RUNNING")
    && (s == Done ==> text == "COMPLETED") && (s == Broken ==> text == "FAILED") && (s == Cancelled ==> text == "CANCELLED")
  }

  ghost predicate UnitStateIs(s: UnitState, text: string) {
    && (s == Planned ==> text == "PLANNED") && (s == Queued ==> text == "READY") && (s == InProgress ==> text == "RUNNING")
    && (s == Succeeded ==> text == "SUCCEEDED") && (s == UnitFailed ==> text == "FAILED")
    && (s == TimedOut ==> text == "TIMED_OUT") && (s == RetryPending ==> text == "RETRY_PENDING")
    && (s == Blocked ==> text == "BLOCKED") && (s == Skipped ==> text == "SKIPPED") && (s == UnitCancelled ==> text == "CANCELLED")
  }

  /** The record's own field behind a column has this value. */
  ghost predicate FieldIs(e: Entity, c: string, cell: Cell) {
    match e
    case Experiment(_, investigation, configuration, _, status) =>
      || (c == "investigation_id" && cell == IdCell(investigation))
      || (c == "configuration_id" && cell == IdCell(configuration))
      || (c == "status" && cell.TextCell? && ExperimentStatusIs(status, cell.text))
    case Run(experiment, environment, _, _, _, status) =>
      || (c == "experiment_id" && cell == IdCell(experiment))
      || (c == "environment_id" && cell == IdCell(environment))
      || (c == "status" && cell.TextCell? && RunStatusIs(status, cell.text))
    case Provenance(run, experiment, environment, configuration, _, _, _, replayOf) =>
      || (c == "run_id" && cell == IdCell(run))
      || (c == "experiment_id" && cell == IdCell(experiment))
      || (c == "environment_id" && cell == IdCell(environment))
      || (c == "configuration_id" && cell == IdCell(configuration))
      || (c == "replay_of" && replayOf.Some? && cell == IdCell(replayOf.value))
    case Outcome(run, _, result, _, _, _) =>
      (c == "run_id" && cell == IdCell(run)) || (c == "status" && cell.TextCell? && RunStatusIs(result, cell.text))
    case Observation(run, _, _, _, _) => c == "run_id" && cell == IdCell(run)
    case Artifact(run, _, _, _) => c == "run_id" && cell == IdCell(run)
    case ScheduleUnit(key, schedule, _, state) =>
      || (c == "schedule_id" && cell == IdCell(schedule))
      || (c == "unit_key" && cell == TextCell(key))
      || (c == "status" && cell.TextCell? && UnitStateIs(state, cell.text))
    case ScheduleRun(_, schedule, investigation, sequence) =>
      || (c == "schedule_id" && cell == IdCell(schedule))
      || (c == "investigation_id" && cell == IdCell(investigation))
      || (c == "sequence" && cell == NumberCell(sequence))
    case Attempt(unit, scheduleRun, attempt, executed, ended) =>
      || (c == "unit_id" && cell == IdCell(unit))
      || (c == "schedule_run_id" && cell == IdCell(scheduleRun))
      || (c == "run_id" && executed.Some? && cell == IdCell(executed.value))
      || (c == "attempt" && cell == NumberCell(attempt))
      || (c == "outcome" && cell.TextCell? && UnitStateIs(ended, cell.text))
    case Other(_, _, _) => false
  }

  lemma {:induction false} ColumnsAre(k: Kind, c: string)
    ensures c in ColumnNames(k) <==> HasColumn(k, c)
  {
  }

  lemma {:induction false} KindIs(e: Entity, k: Kind)
    ensures KindOf(e) == k <==> IsKind(e, k)
  {
  }

  lemma {:induction false} ColumnShowsField(e: Entity, c: string, cell: Cell)
    requires c in ColumnNames(KindOf(e))
    ensures ColumnValue(e, c) == Some(cell) <==> FieldIs(e, c, cell)
  {
  }

  ghost predicate FieldsAre(e: Entity, filters: map<string, Cell>) { forall c :: c in filters ==> FieldIs(e, c, filters[c]) }

  /** Lookup is refused for a column the table does not have; otherwise it returns exactly the records of the
      kind whose own fields have the values asked for. */
  lemma {:induction false} FindIsExact(t: Tables, k: Kind, filters: map<string, Cell>)
    requires Sound(t)
    ensures Find(t, k, filters).Ok? <==> forall c :: c in filters ==> HasColumn(k, c)
    ensures Find(t, k, filters).Err? ==> Find(t, k, filters) == Err(Invalid)
    ensures Find(t, k, filters).Ok? ==>
              && (forall id :: id in Find(t, k, filters).value <==>
                    id in t.rows && IsKind(t.rows[id].payload, k) && FieldsAre(t.rows[id].payload, filters))
              && forall id :: id in Find(t, k, filters).value ==> Find(t, k, filters).value[id] == t.rows[id].payload
  {
    forall c ensures c in ColumnNames(k) <==> HasColumn(k, c) { ColumnsAre(k, c); }
    if filters.Keys <= ColumnNames(k) {
      FindAgrees(t, k, filters);
      forall id | id in t.rows
        ensures id in Find(t, k, filters).value <==>
                IsKind(t.rows[id].payload, k) && FieldsAre(t.rows[id].payload, filters)
      {
        Found(t, k, filters, id);
      }
    }
  }

  lemma {:induction false} Found(t: Tables, k: Kind, filters: map<string, Cell>, id: Id)
    requires Sound(t) && filters.Keys <= ColumnNames(k) && id in t.rows
    ensures Find(t, k, filters).Ok?
    ensures id in Find(t, k, filters).value <==> IsKind(t.rows[id].payload, k) && FieldsAre(t.rows[id].payload, filters)
  {
    var e := t.rows[id].payload;
    FindAgrees(t, k, filters);
    KindIs(e, k);
    if KindOf(e) == k {
      forall c | c in filters ensures ColumnValue(e, c) == Some(filters[c]) <==> FieldIs(e, c, filters[c]) {
        ColumnShowsField(e, c, filters[c]);
      }
    }
  }
}
