/** Mapping the units of a protocol to what was executed, and the account of what is missing. */
module Coverage {
  import opened Common
  import opened Keys
  import opened BenchmarkSpec
  import opened Protocol

  datatype TrialStatus = TrialCompleted | TrialFailed | TrialSkipped

  datatype Trial = Trial(status: TrialStatus, run: Option<string>, reason: Option<string>)

  datatype UnitStatus = Completed | Failed | Skipped | NotRun | Unsupported

  /** Persisted trials by (point index, seed), per grid with a fault experiment and per pair and cell, and
      what went wrong. */
  datatype Executed = Executed(baselineRun: string, baselineCompleted: bool,
                               trials: map<string, map<(nat, nat), Trial>>,
                               cells: map<string, map<string, map<(nat, nat), Trial>>>,
                               errors: map<string, string>)

  datatype Row = Row(unit: Unit, status: UnitStatus, run: Option<string>, reason: Option<string>)

  /** The trial recorded for a unit, if any. */
  function TrialFor(l: Label, ex: Executed): Option<Trial>
    requires !l.Baseline?
  {
    match l
    case FaultTrial(grid, i, seed) =>
      if grid in ex.trials && (i, seed) in ex.trials[grid] then Some(ex.trials[grid][(i, seed)]) else None
    case InteractionTrial(pair, reversed, seed) =>
      if pair in ex.cells && Cell(reversed) in ex.cells[pair] && (0, seed) in ex.cells[pair][Cell(reversed)]
      then Some(ex.cells[pair][Cell(reversed)][(0, seed)]) else None
  }

  function ErrorKey(l: Label): string
    requires !l.Baseline?
  {
    match l
    case FaultTrial(grid, _, _) => "grid:" + grid
    case InteractionTrial(pair, reversed, _) => "pair:" + pair + ":" + Cell(reversed)
  }

  function StatusOf(t: TrialStatus): UnitStatus {
    match t
    case TrialCompleted => Completed
    case TrialFailed => Failed
    case TrialSkipped => Skipped
  }

  /** The row repeats a stored trial's run, reason and status. */
  ghost predicate ReportsTrial(r: Row, t: Trial) {
    && r.run == t.run && r.reason == t.reason
    && (t.status == TrialCompleted ==> r.status == Completed)
    && (t.status == TrialFailed ==> r.status == Failed)
    && (t.status == TrialSkipped ==> r.status == Skipped)
  }

  /** There is no trial, because of the error recorded under the key or because there was no experiment. */
  ghost predicate ReportsNothing(r: Row, key: string, ex: Executed) {
    && r.status == NotRun && r.run.None?
    && r.reason == Some(if key in ex.errors && ex.errors[key] != "" then ex.errors[key]
                        else "the experiment holding this unit was not created")
  }

  /** What a row says of its unit: how the baseline run ended, or what the trial of its point and seed or of
      its cell and seed came to. */
  ghost predicate Reports(r: Row, u: Unit, ex: Executed) {
    && r.unit == u
    && match u.what
       case Baseline =>
         r.status == (if ex.baselineCompleted then Completed else Failed) && r.run == Some(ex.baselineRun) && r.reason.None?
       case FaultTrial(g, i, seed) =>
         if g in ex.trials && (i, seed) in ex.trials[g] then ReportsTrial(r, ex.trials[g][(i, seed)])
         else ReportsNothing(r, "grid:" + g, ex)
       case InteractionTrial(p, reversed, seed) =>
         var cell := if reversed then "BA" else "AB";
         if p in ex.cells && cell in ex.cells[p] && (0, seed) in ex.cells[p][cell]
         then ReportsTrial(r, ex.cells[p][cell][(0, seed)])
         else ReportsNothing(r, "pair:" + p + ":" + cell, ex)
  }

  function RowFor(u: Unit, ex: Executed): Row {
    if u.what.Baseline? then Row(u, if ex.baselineCompleted then Completed else Failed, Some(ex.baselineRun), None)
    else
      match TrialFor(u.what, ex)
      case Some(t) => Row(u, StatusOf(t.status), t.run, t.reason)
      case None =>
        var key := ErrorKey(u.what);
        Row(u, NotRun, None, Some(if key in ex.errors && ex.errors[key] != "" then ex.errors[key]
                                  else "the experiment holding this unit was not created"))
  }

  function Rows(units: seq<Unit>, ex: Executed): seq<Row> {
    if units == [] then [] else Rows(units[..|units| - 1], ex) + [RowFor(units[|units| - 1], ex)]
  }

  lemma {:induction false} RowReports(u: Unit, ex: Executed)
    ensures Reports(RowFor(u, ex), u, ex)
  {
  }

  lemma {:induction false} RowAt(units: seq<Unit>, ex: Executed, i: nat)
    requires i < |units|
    ensures |Rows(units, ex)| == |units| && Rows(units, ex)[i] == RowFor(units[i], ex)
  {
    var n := |units| - 1;
    if n > 0 { RowAt(units[..n], ex, if i < n then i else 0); }
  }

  lemma {:induction false} RowsResolved(units: seq<Unit>, ex: Executed)
    ensures Resolved(Rows(units, ex), units, ex)
  {
    if units != [] { RowAt(units, ex, 0); }
    forall i | 0 <= i < |units| ensures Reports(Rows(units, ex)[i], units[i], ex) {
      RowAt(units, ex, i);
      RowReports(units[i], ex);
    }
  }

  method ResolveUnits(units: seq<Unit>, ex: Executed) returns (rows: seq<Row>)
    ensures |rows| == |units|
    ensures forall i :: 0 <= i < |rows| ==> Reports(rows[i], units[i], ex)
    ensures rows == Rows(units, ex)
  {
    rows := [];
    for n := 0 to |units|
      invariant rows == Rows(units[..n], ex)
    {
      var u := units[n];
      assert units[..n + 1][..n] == units[..n];
      var row := Row(u, NotRun, None, None);
      if u.what.Baseline? {
        row := row.(status := if ex.baselineCompleted then Completed else Failed, run := Some(ex.baselineRun));
      } else {
        var trial := TrialFor(u.what, ex);
        if trial.Some? {
          row := row.(status := StatusOf(trial.value.status), run := trial.value.run, reason := trial.value.reason);
        } else {
          var key := ErrorKey(u.what);
          row := row.(reason := Some(if key in ex.errors && ex.errors[key] != "" then ex.errors[key]
                                     else "the experiment holding this unit was not created"));
        }
      }
      rows := rows + [row];
    }
    assert units[..|units|] == units;
    RowsResolved(units, ex);
  }

  ghost predicate Resolved(rows: seq<Row>, units: seq<Unit>, ex: Executed) {
    |rows| == |units| && forall i :: 0 <= i < |rows| ==> Reports(rows[i], units[i], ex)
  }

  // Conservation ---------------------------------------------------------------------------------------

  function CountIf<T>(s: seq<T>, p: T -> bool): nat {
    if s == [] then 0 else CountIf(s[..|s| - 1], p) + if p(s[|s| - 1]) then 1 else 0
  }

  lemma {:induction false} CountsAll<T>(s: seq<T>, p: T -> bool)
    ensures CountIf(s, p) <= |s|
    ensures CountIf(s, p) == |s| <==> forall i :: 0 <= i < |s| ==> p(s[i])
  {
    if s != [] {
      CountsAll(s[..|s| - 1], p);
      assert forall i :: 0 <= i < |s| - 1 ==> s[..|s| - 1][i] == s[i];
    }
  }

  lemma {:induction false} CountsSome<T>(s: seq<T>, p: T -> bool, k: nat)
    requires k < |s| && p(s[k])
    ensures CountIf(s, p) > 0
  {
    if k < |s| - 1 { CountsSome(s[..|s| - 1], p, k); }
  }

  predicate FaultRow(r: Row) { r.unit.what.FaultTrial? }

  predicate RowOf(r: Row, grid: string) { r.unit.what.FaultTrial? && r.unit.what.grid == grid }

  function WithStatus(st: UnitStatus): Row -> bool { (r: Row) => FaultRow(r) && r.status == st }

  function InFamily(grid: string, st: UnitStatus): Row -> bool { (r: Row) => RowOf(r, grid) && r.status == st }

  function FamilySize(grid: string): Row -> bool { (r: Row) => RowOf(r, grid) }

  /** Requested trials are completed, failed, skipped or not run; none is anything else. */
  lemma {:induction false} TrialsAreConserved(rows: seq<Row>)
    requires forall i :: 0 <= i < |rows| ==> rows[i].status != Unsupported
    ensures CountIf(rows, FaultRow) == CountIf(rows, WithStatus(Completed)) + CountIf(rows, WithStatus(Failed))
                                       + CountIf(rows, WithStatus(Skipped)) + CountIf(rows, WithStatus(NotRun))
  {
    if rows != [] { TrialsAreConserved(rows[..|rows| - 1]); }
  }

  lemma {:induction false} FamilyIsConserved(rows: seq<Row>, grid: string)
    requires forall i :: 0 <= i < |rows| ==> rows[i].status != Unsupported
    ensures CountIf(rows, FamilySize(grid)) ==
            CountIf(rows, InFamily(grid, Completed)) + CountIf(rows, InFamily(grid, Failed))
            + CountIf(rows, InFamily(grid, Skipped)) + CountIf(rows, InFamily(grid, NotRun))
  {
    if rows != [] { FamilyIsConserved(rows[..|rows| - 1], grid); }
  }

  lemma {:induction false} NothingUnsupported(rows: seq<Row>, units: seq<Unit>, ex: Executed)
    requires Resolved(rows, units, ex)
    ensures forall i :: 0 <= i < |rows| ==> rows[i].status != Unsupported
  {
    forall i | 0 <= i < |rows| ensures rows[i].status != Unsupported { assert Reports(rows[i], units[i], ex); }
  }

  /** One status summed over the families, as the coverage lists them. */
  function OverFamilies(names: seq<string>, rows: seq<Row>, st: UnitStatus): nat {
    if names == [] then 0
    else OverFamilies(names[..|names| - 1], rows, st) + CountIf(rows, InFamily(names[|names| - 1], st))
  }

  function Hits(names: seq<string>, r: Row, st: UnitStatus): nat {
    if names == [] then 0
    else Hits(names[..|names| - 1], r, st) + if InFamily(names[|names| - 1], st)(r) then 1 else 0
  }

  lemma {:induction false} OneMoreRow(names: seq<string>, rows: seq<Row>, st: UnitStatus)
    requires rows != []
    ensures OverFamilies(names, rows, st) == OverFamilies(names, rows[..|rows| - 1], st) + Hits(names, rows[|rows| - 1], st)
  {
    if names != [] { OneMoreRow(names[..|names| - 1], rows, st); }
  }

  lemma {:induction false} NoRows(names: seq<string>, st: UnitStatus)
    ensures OverFamilies(names, [], st) == 0
  {
    if names != [] { NoRows(names[..|names| - 1], st); }
  }

  lemma {:induction false} HitsOnce(names: seq<string>, r: Row, st: UnitStatus)
    requires Distinct(names)
    ensures Hits(names, r, st) == if FaultRow(r) && r.unit.what.grid in names && r.status == st then 1 else 0
  {
    if names != [] {
      var n := |names| - 1;
      HitsOnce(names[..n], r, st);
      assert names[n] !in names[..n];
      assert forall x :: x in names <==> x in names[..n] || x == names[n];
    }
  }

  /** The families' counts add up to the counts over all trials, status by status. */
  lemma {:induction false} FamiliesAddUp(names: seq<string>, rows: seq<Row>, st: UnitStatus)
    requires Distinct(names) && forall i :: 0 <= i < |rows| && FaultRow(rows[i]) ==> rows[i].unit.what.grid in names
    ensures OverFamilies(names, rows, st) == CountIf(rows, WithStatus(st))
  {
    if rows == [] {
      NoRows(names, st);
    } else {
      FamiliesAddUp(names, rows[..|rows| - 1], st);
      OneMoreRow(names, rows, st);
      HitsOnce(names, rows[|rows| - 1], st);
    }
  }

  /** For the rows of an expanded benchmark. */
  lemma {:induction false} CoverageConservesUnits(s: Spec, verdict: Grid -> Verdict, rows: seq<Row>, ex: Executed, st: UnitStatus, derive: (nat, nat) -> nat)
    requires SpecOk(s) && Resolved(rows, Units(s, verdict, derive), ex)
    ensures OverFamilies(GridNames(s.faults), rows, st) == CountIf(rows, WithStatus(st))
    ensures CountIf(rows, FaultRow) == CountIf(rows, WithStatus(Completed)) + CountIf(rows, WithStatus(Failed))
                                       + CountIf(rows, WithStatus(Skipped)) + CountIf(rows, WithStatus(NotRun))
  {
    NothingUnsupported(rows, Units(s, verdict, derive), ex);
    TrialsAreConserved(rows);
    forall i | 0 <= i < |rows| && FaultRow(rows[i]) ensures rows[i].unit.what.grid in GridNames(s.faults) {
      assert Reports(rows[i], Units(s, verdict, derive)[i], ex);
      UnitIsOfGrid(s, verdict, rows[i].unit, derive);
    }
    FamiliesAddUp(GridNames(s.faults), rows, st);
  }

  lemma {:induction false} UnitIsOfGrid(s: Spec, verdict: Grid -> Verdict, u: Unit, derive: (nat, nat) -> nat)
    requires u in Units(s, verdict, derive) && u.what.FaultTrial?
    ensures u.what.grid in GridNames(s.faults)
  {
    UnitsAreExactly(s, verdict, u, derive);
    var g :| g in s.faults && verdict(g) == Supported && TrialIn(g, |Points(g)|, s.seeds, u);
    NameListed(s.faults, g.name);
  }

  // Completeness ---------------------------------------------------------------------------------------

  datatype BaselineRead = Unreadable | Read(undefinedMetrics: nat, missingSlices: nat)

  datatype InteractionRead = NotAnalyzed | Analyzed(inconclusive: bool)

  /** An analysis the definition may ask for. */
  datatype Request = NotRequested | DidNotRun | Ran(complete: bool)

  datatype Evidence = Evidence(baseline: BaselineRead, interactions: seq<InteractionRead>,
                               slices: Request, drift: Request, stress: Request, stressShortfall: bool,
                               calibration: Request, resourcesMeasured: seq<bool>,
                               discoveryRequested: bool, discoveryDerived: bool,
                               profileRequested: bool, profileBuilt: bool)

  datatype Reason = BaselineUnreadable | SlicesIncomplete | SlicesDidNotRun | DriftIncomplete | DriftDidNotRun
                  | StressIncomplete | StressDidNotRun | CalibrationIncomplete | CalibrationDidNotRun
                  | ResourcesIncomplete | UnitsIncomplete(count: nat) | GridsExcluded(count: nat) | FamilyUntested
                  | MetricsUndefined | SlicesMissing | InteractionsMissing | InteractionsInconclusive
                  | NoDiscovery | NoProfile

  function RequestReasons(r: Request, incomplete: Reason, didNotRun: Reason): (reasons: seq<Reason>)
    ensures forall x :: x in reasons <==> (x == incomplete && r == Ran(false)) || (x == didNotRun && r == DidNotRun)
  {
    match r
    case NotRequested => []
    case DidNotRun => [didNotRun]
    case Ran(complete) => if complete then [] else [incomplete]
  }

  function NotCompleted(): Row -> bool { (r: Row) => r.status != Completed }

  function IsAnalyzed(): InteractionRead -> bool { (i: InteractionRead) => i.Analyzed? }

  function IsInconclusive(): InteractionRead -> bool { (i: InteractionRead) => i.Analyzed? && i.inconclusive }

  function IsMeasured(): bool -> bool { (m: bool) => m }

  /** When each reason is due. */
  predicate Due(x: Reason, faults: seq<Grid>, unsupported: seq<string>, rows: seq<Row>, e: Evidence) {
    match x
    case BaselineUnreadable => e.baseline.Unreadable?
    case SlicesIncomplete => e.slices == Ran(false)
    case SlicesDidNotRun => e.slices == DidNotRun
    case DriftIncomplete => e.drift == Ran(false)
    case DriftDidNotRun => e.drift == DidNotRun
    case StressIncomplete => e.stress == Ran(false) || (e.stress.Ran? && e.stressShortfall)
    case StressDidNotRun => e.stress == DidNotRun
    case CalibrationIncomplete => e.calibration == Ran(false)
    case CalibrationDidNotRun => e.calibration == DidNotRun
    case ResourcesIncomplete => exists i :: 0 <= i < |e.resourcesMeasured| && !e.resourcesMeasured[i]
    case UnitsIncomplete(n) => n == CountIf(rows, NotCompleted()) && n > 0
    case GridsExcluded(n) => n == |unsupported| && n > 0
    case FamilyUntested => exists k :: 0 <= k < |faults| && !FamilyTested(faults[k].name, unsupported, rows)
    case MetricsUndefined => e.baseline.Unreadable? || e.baseline.undefinedMetrics > 0
    case SlicesMissing => e.baseline.Read? && e.baseline.missingSlices > 0
    case InteractionsMissing => exists i :: 0 <= i < |e.interactions| && e.interactions[i].NotAnalyzed?
    case InteractionsInconclusive => exists i :: 0 <= i < |e.interactions| && e.interactions[i] == Analyzed(true)
    case NoDiscovery => e.discoveryRequested && !e.discoveryDerived
    case NoProfile => e.profileRequested && !e.profileBuilt
  }

  function When(due: bool, x: Reason): (reasons: seq<Reason>)
    ensures forall y :: y in reasons <==> due && y == x
  {
    if due then [x] else []
  }

  /** The part of the account a reason belongs to. */
  function Part(x: Reason): nat {
    match x
    case BaselineUnreadable => 0
    case SlicesIncomplete => 1
    case SlicesDidNotRun => 1
    case DriftIncomplete => 1
    case DriftDidNotRun => 1
    case StressIncomplete => 2
    case StressDidNotRun => 2
    case CalibrationIncomplete => 2
    case CalibrationDidNotRun => 2
    case ResourcesIncomplete => 0
    case UnitsIncomplete(_) => 3
    case GridsExcluded(_) => 3
    case FamilyUntested => 3
    case MetricsUndefined => 4
    case SlicesMissing => 4
    case InteractionsMissing => 5
    case InteractionsInconclusive => 5
    case NoDiscovery => 4
    case NoProfile => 4
  }

  /** `reasons` are exactly the due ones of one part. */
  ghost predicate Lists(reasons: seq<Reason>, part: nat, faults: seq<Grid>, unsupported: seq<string>, rows: seq<Row>, e: Evidence) {
    forall x :: x in reasons <==> Part(x) == part && Due(x, faults, unsupported, rows, e)
  }

  function BaselineReasons(e: Evidence): seq<Reason> { When(e.baseline.Unreadable?, BaselineUnreadable) }

  function ResourceReasons(e: Evidence): seq<Reason> {
    When(CountIf(e.resourcesMeasured, IsMeasured()) != |e.resourcesMeasured|, ResourcesIncomplete)
  }

  function ObservedReasons(e: Evidence): seq<Reason> {
    RequestReasons(e.slices, SlicesIncomplete, SlicesDidNotRun) + RequestReasons(e.drift, DriftIncomplete, DriftDidNotRun)
  }

  function TreatedReasons(e: Evidence): seq<Reason> {
    RequestReasons(if e.stress.Ran? && e.stressShortfall then Ran(false) else e.stress, StressIncomplete, StressDidNotRun)
    + RequestReasons(e.calibration, CalibrationIncomplete, CalibrationDidNotRun)
  }

  lemma {:induction false} AnalysesListed(faults: seq<Grid>, unsupported: seq<string>, rows: seq<Row>, e: Evidence)
    ensures Lists(BaselineReasons(e) + ResourceReasons(e), 0, faults, unsupported, rows, e)
  {
    CountsAll(e.resourcesMeasured, IsMeasured());
  }

  lemma {:induction false} ObservedListed(faults: seq<Grid>, unsupported: seq<string>, rows: seq<Row>, e: Evidence)
    ensures Lists(ObservedReasons(e), 1, faults, unsupported, rows, e)
  {
  }

  lemma {:induction false} TreatedListed(faults: seq<Grid>, unsupported: seq<string>, rows: seq<Row>, e: Evidence)
    ensures Lists(TreatedReasons(e), 2, faults, unsupported, rows, e)
  {
  }

  function UnitReasons(faults: seq<Grid>, unsupported: seq<string>, rows: seq<Row>): seq<Reason> {
    When(CountIf(rows, NotCompleted()) > 0, UnitsIncomplete(CountIf(rows, NotCompleted())))
    + When(unsupported != [], GridsExcluded(|unsupported|))
    + When(exists k :: 0 <= k < |faults| && !FamilyTested(faults[k].name, unsupported, rows), FamilyUntested)
  }

  lemma {:induction false} UnitsListed(faults: seq<Grid>, unsupported: seq<string>, rows: seq<Row>, e: Evidence)
    ensures Lists(UnitReasons(faults, unsupported, rows), 3, faults, unsupported, rows, e)
  {
  }

  function MetricReasons(e: Evidence): seq<Reason> {
    When(e.baseline.Unreadable? || e.baseline.undefinedMetrics > 0, MetricsUndefined)
    + When(e.baseline.Read? && e.baseline.missingSlices > 0, SlicesMissing)
  }

  function InteractionReasons(e: Evidence): seq<Reason> {
    When(CountIf(e.interactions, IsAnalyzed()) < |e.interactions|, InteractionsMissing)
    + When(CountIf(e.interactions, IsInconclusive()) > 0, InteractionsInconclusive)
  }

  function AssemblyReasons(e: Evidence): seq<Reason> {
    When(e.discoveryRequested && !e.discoveryDerived, NoDiscovery) + When(e.profileRequested && !e.profileBuilt, NoProfile)
  }

  lemma {:induction false} ResultsListed(faults: seq<Grid>, unsupported: seq<string>, rows: seq<Row>, e: Evidence)
    ensures Lists(MetricReasons(e) + AssemblyReasons(e), 4, faults, unsupported, rows, e)
  {
  }

  lemma {:induction false} InteractionsListed(faults: seq<Grid>, unsupported: seq<string>, rows: seq<Row>, e: Evidence)
    ensures Lists(InteractionReasons(e), 5, faults, unsupported, rows, e)
  {
    CountsAll(e.interactions, IsAnalyzed());
    CountsNone(e.interactions, IsInconclusive());
  }

  method SomeUntested(faults: seq<Grid>, unsupported: seq<string>, rows: seq<Row>) returns (untested: bool)
    ensures untested <==> exists k :: 0 <= k < |faults| && !FamilyTested(faults[k].name, unsupported, rows)
  {
    untested := false;
    for n := 0 to |faults|
      invariant untested <==> exists k :: 0 <= k < n && !FamilyTested(faults[k].name, unsupported, rows)
    {
      untested := untested || !FamilyTested(faults[n].name, unsupported, rows);
    }
  }

  function ReasonList(faults: seq<Grid>, unsupported: seq<string>, rows: seq<Row>, e: Evidence): seq<Reason> {
    BaselineReasons(e) + ObservedReasons(e) + TreatedReasons(e) + ResourceReasons(e)
    + UnitReasons(faults, unsupported, rows) + MetricReasons(e) + InteractionReasons(e) + AssemblyReasons(e)
  }

  /** The list holds exactly the reasons that are due. */
  lemma {:induction false} ReasonsAreDue(faults: seq<Grid>, unsupported: seq<string>, rows: seq<Row>, e: Evidence)
    ensures forall x :: x in ReasonList(faults, unsupported, rows, e) <==> Due(x, faults, unsupported, rows, e)
  {
    AnalysesListed(faults, unsupported, rows, e);
    ObservedListed(faults, unsupported, rows, e);
    TreatedListed(faults, unsupported, rows, e);
    UnitsListed(faults, unsupported, rows, e);
    ResultsListed(faults, unsupported, rows, e);
    InteractionsListed(faults, unsupported, rows, e);
    AllListed(BaselineReasons(e), ObservedReasons(e), TreatedReasons(e), ResourceReasons(e),
              UnitReasons(faults, unsupported, rows), MetricReasons(e), InteractionReasons(e), AssemblyReasons(e),
              faults, unsupported, rows, e);
  }

  /** `unsupported`: the excluded grids. */
  method CollectReasons(faults: seq<Grid>, unsupported: seq<string>, rows: seq<Row>, e: Evidence) returns (reasons: seq<Reason>)
    ensures forall x :: x in reasons <==> Due(x, faults, unsupported, rows, e)
    ensures reasons == ReasonList(faults, unsupported, rows, e)
  {
    reasons := BaselineReasons(e) + ObservedReasons(e) + TreatedReasons(e) + ResourceReasons(e);
    var failed := CountIf(rows, NotCompleted());
    var untested := SomeUntested(faults, unsupported, rows);
    reasons := reasons + (When(failed > 0, UnitsIncomplete(failed)) + When(unsupported != [], GridsExcluded(|unsupported|))
                          + When(untested, FamilyUntested));
    reasons := reasons + MetricReasons(e) + InteractionReasons(e) + AssemblyReasons(e);
    ReasonsAreDue(faults, unsupported, rows, e);
  }

  lemma {:induction false} AllListed(a: seq<Reason>, b: seq<Reason>, c: seq<Reason>, d: seq<Reason>, u: seq<Reason>, m: seq<Reason>,
                                     i: seq<Reason>, z: seq<Reason>, faults: seq<Grid>, unsupported: seq<string>, rows: seq<Row>, e: Evidence)
    requires Lists(a + d, 0, faults, unsupported, rows, e) && Lists(b, 1, faults, unsupported, rows, e)
    requires Lists(c, 2, faults, unsupported, rows, e) && Lists(u, 3, faults, unsupported, rows, e)
    requires Lists(m + z, 4, faults, unsupported, rows, e) && Lists(i, 5, faults, unsupported, rows, e)
    ensures forall x :: x in a + b + c + d + u + m + i + z <==> Due(x, faults, unsupported, rows, e)
  {
    forall x ensures x in a + b + c + d + u + m + i + z <==> Due(x, faults, unsupported, rows, e) {
      assert x in a + b + c + d + u + m + i + z <==>
             x in a + d || x in b || x in c || x in u || x in m + z || x in i;
      assert Part(x) <= 5;
    }
  }

  /** No reason is due exactly when everything was obtained, completed, included and tested. */
  lemma {:induction false} NoReasonIff(faults: seq<Grid>, unsupported: seq<string>, rows: seq<Row>, e: Evidence)
    ensures (forall x :: !Due(x, faults, unsupported, rows, e)) <==>
            && Obtained(e) && CountIf(rows, NotCompleted()) == 0 && unsupported == []
            && forall n :: 0 <= n < |faults| ==> FamilyTested(faults[n].name, unsupported, rows)
  {
    var n, k := CountIf(rows, NotCompleted()), |unsupported|;
    if forall x :: !Due(x, faults, unsupported, rows, e) {
      assert !Due(UnitsIncomplete(n), faults, unsupported, rows, e) && !Due(GridsExcluded(k), faults, unsupported, rows, e);
      assert !Due(FamilyUntested, faults, unsupported, rows, e);
      NothingDueIsObtained(faults, unsupported, rows, e);
    }
  }

  lemma {:induction false} NothingDueIsObtained(faults: seq<Grid>, unsupported: seq<string>, rows: seq<Row>, e: Evidence)
    requires forall x :: !Due(x, faults, unsupported, rows, e)
    ensures Obtained(e)
  {
    NothingDueElsewhere(faults, unsupported, rows, e);
    assert !Due(MetricsUndefined, faults, unsupported, rows, e) && !Due(SlicesMissing, faults, unsupported, rows, e);
    assert !Due(ResourcesIncomplete, faults, unsupported, rows, e);
    assert !Due(InteractionsMissing, faults, unsupported, rows, e) && !Due(InteractionsInconclusive, faults, unsupported, rows, e);
    assert !Due(NoDiscovery, faults, unsupported, rows, e) && !Due(NoProfile, faults, unsupported, rows, e);
  }

  lemma {:induction false} NothingDueElsewhere(faults: seq<Grid>, unsupported: seq<string>, rows: seq<Row>, e: Evidence)
    requires forall x :: !Due(x, faults, unsupported, rows, e)
    ensures Fulfilled(e.slices) && Fulfilled(e.drift) && Fulfilled(e.calibration)
    ensures Fulfilled(e.stress) && (e.stress.Ran? ==> !e.stressShortfall)
  {
    assert !Due(SlicesIncomplete, faults, unsupported, rows, e) && !Due(SlicesDidNotRun, faults, unsupported, rows, e);
    assert !Due(DriftIncomplete, faults, unsupported, rows, e) && !Due(DriftDidNotRun, faults, unsupported, rows, e);
    assert !Due(StressIncomplete, faults, unsupported, rows, e) && !Due(StressDidNotRun, faults, unsupported, rows, e);
    assert !Due(CalibrationIncomplete, faults, unsupported, rows, e) && !Due(CalibrationDidNotRun, faults, unsupported, rows, e);
  }

  lemma {:induction false} CountsNone<T>(s: seq<T>, p: T -> bool)
    ensures CountIf(s, p) == 0 <==> forall i :: 0 <= i < |s| ==> !p(s[i])
  {
    if s != [] {
      CountsNone(s[..|s| - 1], p);
      assert forall i :: 0 <= i < |s| - 1 ==> s[..|s| - 1][i] == s[i];
    }
  }

  predicate FamilyTested(grid: string, unsupported: seq<string>, rows: seq<Row>) {
    grid in unsupported || CountIf(rows, InFamily(grid, Completed)) > 0
  }

  predicate Fulfilled(r: Request) { r.NotRequested? || (r.Ran? && r.complete) }

  /** Every requested analysis is there and conclusive, except the analyses of the faults themselves. */
  ghost predicate Obtained(e: Evidence) {
    && e.baseline == Read(0, 0)
    && (forall i :: 0 <= i < |e.interactions| ==> e.interactions[i] == Analyzed(false))
    && Fulfilled(e.slices) && Fulfilled(e.drift) && Fulfilled(e.calibration)
    && Fulfilled(e.stress) && (e.stress.Ran? ==> !e.stressShortfall)
    && (forall i :: 0 <= i < |e.resourcesMeasured| ==> e.resourcesMeasured[i])
    && (e.discoveryRequested ==> e.discoveryDerived) && (e.profileRequested ==> e.profileBuilt)
  }

  /** Every grid has at least one trial, so a benchmark whose units all completed tested every family. */
  lemma {:induction false} FamiliesAreTested(s: Spec, verdict: Grid -> Verdict, rows: seq<Row>, ex: Executed, g: Grid, derive: (nat, nat) -> nat)
    requires SpecOk(s) && Resolved(rows, Units(s, verdict, derive), ex) && g in s.faults && verdict(g) == Supported
    requires forall i :: 0 <= i < |rows| ==> rows[i].status == Completed
    ensures CountIf(rows, InFamily(g.name, Completed)) > 0
  {
    var u := TrialOf(g, 0, s.seeds[0]);
    assert TrialIn(g, |Points(g)|, s.seeds, u);
    UnitsAreExactly(s, verdict, u, derive);
    var k := AtIndex(Units(s, verdict, derive), u);
    assert Reports(rows[k], Units(s, verdict, derive)[k], ex);
    CountsSome(rows, InFamily(g.name, Completed), k);
  }

  // Fault responses --------------------------------------------------------------------------------------

  /** What reading a grid's stored fault analysis gives: an error, or the completed trials of each point. */
  datatype Analysis = LoadFails | Stored(completed: seq<nat>)

  datatype Availability = Unavailable | InsufficientEvidence | Observed

  datatype Response = Response(grid: string, status: Availability, points: seq<nat>, reason: Option<string>)

  function ResponseFor(g: Grid, ex: Executed, load: string -> Analysis): Response {
    if g.name !in ex.trials then
      var key := "grid:" + g.name;
      Response(g.name, Unavailable, [],
               Some(if key in ex.errors then ex.errors[key] else "the fault experiment was not created"))
    else
      match load(g.name)
      case LoadFails => Response(g.name, Unavailable, [], Some("the fault analysis could not be read"))
      case Stored(completed) =>
        Response(g.name, if SomeCompleted(completed) then Observed else InsufficientEvidence, completed, None)
  }

  predicate SomeCompleted(completed: seq<nat>) { exists i :: 0 <= i < |completed| && completed[i] > 0 }

  /** One response per grid that was not excluded, in order. */
  function Responses(faults: seq<Grid>, unsupported: seq<string>, ex: Executed, load: string -> Analysis): seq<Response> {
    if faults == [] then []
    else
      var g := faults[|faults| - 1];
      Responses(faults[..|faults| - 1], unsupported, ex, load)
      + if g.name in unsupported then [] else [ResponseFor(g, ex, load)]
  }

  method CollectResponses(faults: seq<Grid>, unsupported: seq<string>, ex: Executed, load: string -> Analysis)
    returns (responses: seq<Response>)
    ensures responses == Responses(faults, unsupported, ex, load)
    ensures forall r :: r in responses <==> exists g :: g in faults && g.name !in unsupported && Answers(r, g, ex, load)
  {
    responses := [];
    for n := 0 to |faults|
      invariant responses == Responses(faults[..n], unsupported, ex, load)
    {
      var g := faults[n];
      assert faults[..n + 1][..n] == faults[..n];
      if g.name !in unsupported {
        var response := Response(g.name, Unavailable, [], None);
        if g.name !in ex.trials {
          var key := "grid:" + g.name;
          response := response.(reason := Some(if key in ex.errors then ex.errors[key] else "the fault experiment was not created"));
        } else {
          var analysis := load(g.name);
          if analysis.Stored? {
            response := response.(points := analysis.completed,
                                  status := if SomeCompleted(analysis.completed) then Observed else InsufficientEvidence);
          } else {
            response := response.(reason := Some("the fault analysis could not be read"));
          }
        }
        responses := responses + [response];
      }
    }
    assert faults[..|faults|] == faults;
    forall r ensures r in responses <==> exists g :: g in faults && g.name !in unsupported && Answers(r, g, ex, load) {
      InResponses(faults, unsupported, ex, load, r);
    }
  }

  /** A grid's response: unavailable, with the reason, where there is no experiment or no readable analysis,
      else observed if some point has a completed trial and short of evidence if none has. */
  ghost predicate Answers(r: Response, g: Grid, ex: Executed, load: string -> Analysis) {
    && r.grid == g.name
    && if g.name !in ex.trials then
         var key := "grid:" + g.name;
         && r.status == Unavailable && r.points == []
         && r.reason == Some(if key in ex.errors then ex.errors[key] else "the fault experiment was not created")
       else if load(g.name).LoadFails? then
         r.status == Unavailable && r.points == [] && r.reason == Some("the fault analysis could not be read")
       else
         && r.reason.None? && r.points == load(g.name).completed
         && ((exists i :: 0 <= i < |r.points| && r.points[i] > 0) ==> r.status == Observed)
         && ((forall i :: 0 <= i < |r.points| ==> r.points[i] == 0) ==> r.status == InsufficientEvidence)
  }

  lemma {:induction false} AnswersIff(r: Response, g: Grid, ex: Executed, load: string -> Analysis)
    ensures Answers(r, g, ex, load) <==> r == ResponseFor(g, ex, load)
  {
  }

  lemma {:induction false} InResponses(faults: seq<Grid>, unsupported: seq<string>, ex: Executed, load: string -> Analysis, r: Response)
    ensures r in Responses(faults, unsupported, ex, load) <==>
            exists g :: g in faults && g.name !in unsupported && Answers(r, g, ex, load)
  {
    if faults != [] {
      var rest, g := faults[..|faults| - 1], faults[|faults| - 1];
      InResponses(rest, unsupported, ex, load, r);
      AnswersIff(r, g, ex, load);
      assert forall h :: h in faults <==> h in rest || h == g;
    }
  }

  // The whole account --------------------------------------------------------------------------------------

  datatype Account = Account(rows: seq<Row>, responses: seq<Response>, reasons: seq<Reason>)

  predicate Complete(a: Account) { a.reasons == [] }

  function AccountOf(s: Spec, plan: Plan, ex: Executed, e: Evidence, load: string -> Analysis): Account {
    var rows := Rows(plan.units, ex);
    Account(rows, Responses(s.faults, plan.unsupported, ex, load), ReasonList(s.faults, plan.unsupported, rows, e))
  }

  method Collect(s: Spec, plan: Plan, ex: Executed, e: Evidence, load: string -> Analysis) returns (a: Account)
    ensures a == AccountOf(s, plan, ex, e, load)
    ensures Resolved(a.rows, plan.units, ex)
    ensures forall r :: r in a.responses <==> exists g :: g in s.faults && g.name !in plan.unsupported && Answers(r, g, ex, load)
    ensures forall x :: x in a.reasons <==> Due(x, s.faults, plan.unsupported, a.rows, e)
  {
    var rows := ResolveUnits(plan.units, ex);
    var responses := CollectResponses(s.faults, plan.unsupported, ex, load);
    var reasons := CollectReasons(s.faults, plan.unsupported, rows, e);
    a := Account(rows, responses, reasons);
  }

  /** The plan of an expanded benchmark: every grid is expanded or excluded. */
  ghost predicate Expanded(s: Spec, plan: Plan, verdict: Grid -> Verdict, derive: (nat, nat) -> nat) {
    && SpecOk(s) && plan.units == Units(s, verdict, derive)
    && forall g :: g in s.faults ==> verdict(g) == Supported || g.name in plan.unsupported
  }

  ghost predicate AllCompleted(rows: seq<Row>) { forall i :: 0 <= i < |rows| ==> rows[i].status == Completed }

  lemma {:induction false} NothingDue(faults: seq<Grid>, unsupported: seq<string>, rows: seq<Row>, e: Evidence)
    ensures ReasonList(faults, unsupported, rows, e) == [] <==> forall x :: !Due(x, faults, unsupported, rows, e)
  {
    var reasons := ReasonList(faults, unsupported, rows, e);
    ReasonsAreDue(faults, unsupported, rows, e);
    if reasons != [] { assert reasons[0] in reasons; }
  }

  /** An expanded benchmark is COMPLETE exactly when everything else that was requested was obtained, every
      unit completed and no grid was excluded; that every family was tested follows. */
  lemma {:induction false} CompleteIff(s: Spec, plan: Plan, verdict: Grid -> Verdict, derive: (nat, nat) -> nat,
                                       ex: Executed, e: Evidence, load: string -> Analysis)
    requires Expanded(s, plan, verdict, derive)
    ensures Complete(AccountOf(s, plan, ex, e, load)) <==>
            Obtained(e) && plan.unsupported == [] && AllCompleted(Rows(plan.units, ex))
  {
    var rows := Rows(plan.units, ex);
    RowsResolved(plan.units, ex);
    NothingDue(s.faults, plan.unsupported, rows, e);
    NoReasonIff(s.faults, plan.unsupported, rows, e);
    CountsNone(rows, NotCompleted());
    if AllCompleted(rows) && plan.unsupported == [] {
      forall n | 0 <= n < |s.faults| ensures FamilyTested(s.faults[n].name, plan.unsupported, rows) {
        FamiliesAreTested(s, verdict, rows, ex, s.faults[n], derive);
      }
    }
  }

  /** In a COMPLETE account every grid has a fault experiment, because its trials completed. */
  lemma {:induction false} CompleteHasExperiments(s: Spec, plan: Plan, verdict: Grid -> Verdict, derive: (nat, nat) -> nat,
                                                  ex: Executed, e: Evidence, load: string -> Analysis, g: Grid)
    requires Expanded(s, plan, verdict, derive) && Complete(AccountOf(s, plan, ex, e, load)) && g in s.faults
    ensures g.name in ex.trials
  {
    CompleteIff(s, plan, verdict, derive, ex, e, load);
    CompletedHasExperiment(s, verdict, derive, Rows(plan.units, ex), ex, g);
  }

  lemma {:induction false} CompletedHasExperiment(s: Spec, verdict: Grid -> Verdict, derive: (nat, nat) -> nat,
                                                  rows: seq<Row>, ex: Executed, g: Grid)
    requires SpecOk(s) && g in s.faults && verdict(g) == Supported
    requires rows == Rows(Units(s, verdict, derive), ex) && AllCompleted(rows)
    ensures g.name in ex.trials
  {
    RowsResolved(Units(s, verdict, derive), ex);
    var u := TrialOf(g, 0, s.seeds[0]);
    assert TrialIn(g, |Points(g)|, s.seeds, u);
    UnitsAreExactly(s, verdict, u, derive);
    var k := AtIndex(Units(s, verdict, derive), u);
    assert Reports(rows[k], u, ex) && rows[k].status == Completed;
  }

  /** In a COMPLETE account every grid has a response, which is UNAVAILABLE exactly when its stored analysis
      cannot be read. */
  lemma {:induction false} UnavailableIff(s: Spec, plan: Plan, verdict: Grid -> Verdict, derive: (nat, nat) -> nat,
                                          ex: Executed, e: Evidence, load: string -> Analysis, g: Grid)
    requires Expanded(s, plan, verdict, derive) && Complete(AccountOf(s, plan, ex, e, load)) && g in s.faults
    ensures ResponseFor(g, ex, load) in AccountOf(s, plan, ex, e, load).responses
    ensures ResponseFor(g, ex, load).status == Unavailable <==> load(g.name).LoadFails?
  {
    CompleteIff(s, plan, verdict, derive, ex, e, load);
    CompleteHasExperiments(s, plan, verdict, derive, ex, e, load, g);
    AnswersIff(ResponseFor(g, ex, load), g, ex, load);
    InResponses(s.faults, plan.unsupported, ex, load, ResponseFor(g, ex, load));
  }

  /** What COMPLETE is documented to mean for the fault analyses: every requested one is there. */
  ghost predicate AllAvailable(a: Account) { forall r :: r in a.responses ==> r.status != Unavailable }

  /** COMPLETE keeps its documented promise exactly when no stored fault analysis fails to load. */
  lemma {:induction false} PromiseKeptIff(s: Spec, plan: Plan, verdict: Grid -> Verdict, derive: (nat, nat) -> nat,
                                          ex: Executed, e: Evidence, load: string -> Analysis)
    requires Expanded(s, plan, verdict, derive) && Complete(AccountOf(s, plan, ex, e, load))
    ensures AllAvailable(AccountOf(s, plan, ex, e, load)) <==> forall g :: g in s.faults ==> !load(g.name).LoadFails?
  {
    forall g | g in s.faults
      ensures ResponseFor(g, ex, load) in AccountOf(s, plan, ex, e, load).responses
      ensures ResponseFor(g, ex, load).status == Unavailable <==> load(g.name).LoadFails?
    {
      UnavailableIff(s, plan, verdict, derive, ex, e, load, g);
    }
    forall r | r in AccountOf(s, plan, ex, e, load).responses ensures exists g :: g in s.faults && r == ResponseFor(g, ex, load) {
      InResponses(s.faults, plan.unsupported, ex, load, r);
      var g :| g in s.faults && Answers(r, g, ex, load);
      AnswersIff(r, g, ex, load);
    }
  }

  /** Whatever reading the analyses gives, the units, the reasons and COMPLETE are the same. */
  lemma {:induction false} LoadingGoesUnnoticed(s: Spec, plan: Plan, ex: Executed, e: Evidence, load: string -> Analysis, load': string -> Analysis)
    ensures var a, b := AccountOf(s, plan, ex, e, load), AccountOf(s, plan, ex, e, load');
            a.rows == b.rows && a.reasons == b.reasons && Complete(a) == Complete(b)
  {
  }

  // A benchmark whose only analysis cannot be read ----------------------------------------------------------

  const NOISE := Grid("noise", "noise", map[], None, [], None, None)
  const NOISE_SPEC := Spec([NOISE], [], [0], Limits(200, false))
  const NOISE_RUN := Executed("baseline", true, map["noise" := map[(0, 0) := Trial(TrialCompleted, None, None)]], map[], map[])
  const ALL_ELSE := Evidence(Read(0, 0), [], NotRequested, NotRequested, NotRequested, false, NotRequested, [], false, false, false, false)

  function NoisePlan(): Plan { Plan([BASELINE, TrialOf(NOISE, 0, 0)], [], map[]) }

  function Usable(): Grid -> Verdict { (g: Grid) => Supported }

  function Unreadable(): string -> Analysis { (grid: string) => LoadFails }

  lemma {:induction false} NoiseIsExpanded(derive: (nat, nat) -> nat)
    ensures Expanded(NOISE_SPEC, NoisePlan(), Usable(), derive)
  {
    assert [NOISE][..0] == [] && NOISE_SPEC.seeds[..0] == [];
    assert Trials(NOISE, 0, [0]) == [TrialOf(NOISE, 0, 0)];
    assert GridUnits(NOISE, 1, [0]) == [TrialOf(NOISE, 0, 0)];
    assert FaultUnits([NOISE], [0], Usable()) == [TrialOf(NOISE, 0, 0)];
  }

  lemma {:induction false} NoiseRows()
    ensures Rows(NoisePlan().units, NOISE_RUN) ==
            [Row(BASELINE, Completed, Some("baseline"), None), Row(TrialOf(NOISE, 0, 0), Completed, None, None)]
  {
    var units := NoisePlan().units;
    assert units[..1] == [BASELINE] && units[..1][..0] == [];
    assert Rows([BASELINE], NOISE_RUN) == [RowFor(BASELINE, NOISE_RUN)];
    assert Rows(units, NOISE_RUN) == Rows(units[..1], NOISE_RUN) + [RowFor(units[1], NOISE_RUN)];
  }

  /** It is accepted and expanded, its baseline and its trial completed and it is COMPLETE, although the
      response of its only grid is UNAVAILABLE. */
  lemma {:induction false} UnreadableAnalysisGoesUnnoticed(composable: Pair -> bool, derive: (nat, nat) -> nat)
    ensures Accepted(NOISE_SPEC, [], Usable(), composable) && Expanded(NOISE_SPEC, NoisePlan(), Usable(), derive)
    ensures var a := AccountOf(NOISE_SPEC, NoisePlan(), NOISE_RUN, ALL_ELSE, Unreadable());
            && Complete(a) && Resolved(a.rows, Units(NOISE_SPEC, Usable(), derive), NOISE_RUN) && |a.rows| == 2
            && a.responses == [Response("noise", Unavailable, [], Some("the fault analysis could not be read"))]
  {
    NoiseIsExpanded(derive);
    NoiseRows();
    RowsResolved(NoisePlan().units, NOISE_RUN);
    CompleteIff(NOISE_SPEC, NoisePlan(), Usable(), derive, NOISE_RUN, ALL_ELSE, Unreadable());
    assert [NOISE][..0] == [];
    assert TotalPoints([NOISE], Usable()) == 1;
    assert ResponseFor(NOISE, NOISE_RUN, Unreadable()) ==
           Response("noise", Unavailable, [], Some("the fault analysis could not be read")) by {
      assert Unreadable()("noise") == LoadFails;
    }
    assert Responses([NOISE], [], NOISE_RUN, Unreadable()) == [ResponseFor(NOISE, NOISE_RUN, Unreadable())];
  }
}
