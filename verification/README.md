# EXPERIONYX in Dafny

EXPERIONYX registers experiments, executes them as traced runs, and evaluates models: it calibrates
confidences, expands benchmark protocols and accounts for what was and was not covered. This project
models three parts of it and proves what they promise.

**Calibration mathematics.** Pool-adjacent-violators regression on a block stack, the calibrator read
back from its knots, uniform and quantile bins, the reliability table with ECE and MCE, AUROC by
bisection, and the seeded calibration / evaluation split. Numbers are exact reals. The results: the
fitted calibrator is the unique least-squares monotone fit; applying it is total, monotone and exact on
the training data; refining uniform bins never lowers the ECE; |overconfidence| <= ECE <= MCE <= 1 and
ECE squared is at most the Brier score; quantile bins are balanced; bisection computes the pairwise AUROC;
evaluation samples cannot influence the calibrator.

**Registry and run lifecycle.** Tables are a map from record ids to records with their indexed columns,
plus the order of insertion. On them stand a connection with nested transactions and a single write lock,
and the executors. `Executors` is a state machine of any number of executors sharing one registry, in
which every statement of a transaction, every failure and every crash is a step of its own; a procedure is
an arbitrary sequence of observations and artifacts ending in a return or a raise. `ExecutorSafety` proves
the lifecycle invariant for every trace, and `ExecutorGuarantees` draws the consequences: gap-free attempt
numbers, finished runs that never change, and exactly when a start, a finalizer or a recovery is refused.
`Causes` and `Requests` trace every recorded start and outcome back to what an executor was asked to do and did.
`ReplayLinks` and `ReplayCycles` show when replays form a forest, `RecoveryPass` that a recovery pass misses no dead run.
`Execution` and `Recovery` are the same operations step by step on one connection; their transactions run
the very scripts of the state machine.

**Benchmark protocol and coverage.** Canonical definitions, validation, the expansion of grids, points,
seeds and interaction pairs into uniquely keyed units, the mapping of units to trials and the coverage
account with its exact condition for COMPLETE.

Some promises turn out to need a condition, each shown by a concrete witness.

- The registry alone admits an outcome without a final status and two pending runs that replay each other
  (`Witnesses.UnfinishedOutcomeIsAdmitted`, `Witnesses.ReplayCycleIsAdmitted`). A single addition keeps
  status, provenance and outcome in step exactly when it is no outcome, no provenance and no run that is not
  PENDING, and a single status update exactly when it is not a run's (`LifecycleSteps.AdditionKeepsRunsIff`,
  `LifecycleSteps.UpdateKeepsRunsIff`); the executor's paired transactions keep them in step for every caller.
- Replays form a forest if callers of `execute` name only started runs of the experiment, as `replay` does
  (`ReplayLinks.ReachedReplaysFormForest`). `execute` does not check that, and two callers who name each
  other's coming run commit a cycle (`Witnesses.CarelessCallersReachCycle`). For any callers the links are
  acyclic exactly when no committed start's original led back to the run being started
  (`ReplayCycles.ReachedIsAcyclicIff`), which the tables show before the write.
- The documentation of transactions says that any exception rolls everything back. That holds for code
  without handlers (`SqliteRegistry.UnhandledBlocksAreAtomic`); an exception swallowed inside the outer block
  keeps the writes before it (`SqliteRegistry.SwallowedErrorKeepsWrites`).
- COMPLETE is documented to mean that every requested analysis ran. It does exactly when no stored fault
  analysis fails to load (`Coverage.PromiseKeptIff`, `Coverage.UnreadableAnalysisGoesUnnoticed`).
- An interaction reuses the trials of its two grid points. Its compound cells hold the same faults but with
  seeds derived by position, so they repeat the trials exactly only if the derived seeds coincide with the
  trials' (`Expansion.CellRepeatsTrialsIff`).

Each module's file bears its name, except that `RunRecorder` is in `Recorder.dfy`. Verify with
`dafny verify dfyconfig.toml`.

## Model

| member | source | states |
|---|---|---|
| Isotonic.Pool | src/experionyx/calibration/measures.py:308-313 | The two nested loops end in a stack of consecutive runs of the points with non-decreasing means, each of whose proper prefixes has a larger mean than the run. |
| Isotonic.MergeBlocks | src/experionyx/calibration/measures.py:311-313 | Merging two neighbouring blocks whose means fall gives a block again: every proper prefix of the merged run lies above the merged mean. |
| Isotonic.MeanBetween | src/experionyx/calibration/measures.py:311-313 | The merged mean lies strictly between the two it replaces. |
| Calibrator.PoolByConfidence | src/experionyx/calibration/measures.py:303-307 | Pooling by confidence collects, for exactly the confidences that occur, the hits and the count of all observations there. |
| Calibrator.FitIsotonic | src/experionyx/calibration/measures.py:299-317 | The fit is the one read off a pooling of the observations; on non-empty input it can be applied and no non-decreasing function has a smaller squared error, by at least the squared distance. |
| Calibrator.KnotsShape | src/experionyx/calibration/measures.py:314-317 | Knot confidences strictly increase and knot values do not decrease and stay in [0, 1]; the first and last knot are the ends of the first and last block. |
| Calibrator.FitIsUsable | src/experionyx/calibration/measures.py:314-317 | Fitting any non-empty list of observations gives a calibrator that can be applied everywhere without division by zero, with at least one knot per block. |
| Calibrator.Interpolates | src/experionyx/calibration/measures.py:328-330 | Between two neighbouring knots, ends included, the calibrated value lies on the straight line through them: (f(c) - y0) * (x1 - x0) = (y1 - y0) * (c - x0). |
| Calibrator.ClipsOutside | src/experionyx/calibration/measures.py:324-327 | Outside the fitted range the calibrator returns its first or last value. |
| Calibrator.ApplyAtKnot | src/experionyx/calibration/measures.py:320-330 | At a knot the calibrator returns the knot's value. |
| Calibrator.ApplyIsMonotone | src/experionyx/calibration/measures.py:320-330 | The calibrator never falls, on any inputs, and stays between its first and last value. |
| Calibrator.LevelAtTraining | src/experionyx/calibration/measures.py:299-330 | Fit then apply: at every training confidence the calibrator returns exactly the mean of its block; the fit states its numbers of blocks and of observations. |
| LeastSquares.BlockOptimal | src/experionyx/calibration/measures.py:308-313 | On one block the block mean beats every non-decreasing candidate by the weighted squared distance. |
| LeastSquares.PoolingOptimal | src/experionyx/calibration/measures.py:308-313 | The same over the whole stack. |
| LeastSquares.PooledIsPairwise | src/experionyx/calibration/measures.py:303-307 | Squared errors over the pooled points equal squared errors over the observations. |
| Calibrator.IsotonicIsOptimal | src/experionyx/calibration/measures.py:299-317 | SSE(g) >= SSE(fit) + sum of (fit - g)^2 for every non-decreasing g: least-squares optimality of pool-adjacent-violators. |
| Calibrator.IsotonicIsUnique | src/experionyx/calibration/measures.py:299-317 | A non-decreasing function that does no worse agrees with the fit at every training confidence. |
| UniquePooling.PoolingIsUnique | src/experionyx/calibration/measures.py:308-313 | The final stack is determined by the points, whatever the order of merges. |
| Calibrator.FitIsDetermined | src/experionyx/calibration/measures.py:299-317 | Hence two fits of the same observations are identical, knots and block count included. |
| Bins.AssignedToItsBin | src/experionyx/calibration/measures.py:100-101 | Between the outer edges bisection assigns a value to bin j if and only if bin j contains it (lower-closed, the last bin closed). |
| Bins.AssignClamps | src/experionyx/calibration/measures.py:100-101 | Values outside the outer edges go to the first or last bin. |
| Bins.UniformEdgesValid | src/experionyx/calibration/measures.py:88-92 | Uniform edges are increasing from 0 to 1, one more than bins. |
| Bins.UniformEdgesAre | src/experionyx/calibration/measures.py:91-92 | The uniform strategy makes n + 1 edges, n times edge k being k. |
| CalibrationError.UniformBinIs | src/experionyx/calibration/measures.py:88-101 | With n uniform bins a value v in [0, 1] is in bin j if and only if j <= n*v < j + 1, the last bin closed. |
| Bins.QuantileEdgesValid | src/experionyx/calibration/measures.py:93-97 | For any non-empty values, ties included, quantile edges are valid, span all values and make at most the requested number of bins. |
| Bins.QuantileEdgesAre | src/experionyx/calibration/measures.py:93-97 | For any values, ties included, the quantile strategy's outer edges are the minimum and the maximum, and its inner edges are exactly, each once and in order, the values above the minimum that stand at an equal-count rank k * size div n, 0 < k < n. |
| QuantileBalance.DistinctEdges | src/experionyx/calibration/measures.py:93-97 | For distinct values, at least as many as bins, the edges are the values at the equal-count ranks. |
| QuantileBalance.QuantileBinsBalanced | src/experionyx/calibration/measures.py:88-136 | In that case there are exactly n bins and each row counts the floor or the ceiling of the equal share. |
| Reliability.Curve | src/experionyx/calibration/measures.py:108-136 | One pass over the observations yields, for every bin, the row of exactly the observations assigned to it. |
| CalibrationError.MembersSums | src/experionyx/calibration/measures.py:116-122 | A row's sums are the sums over all observations restricted to its bin. |
| CalibrationError.RowReports | src/experionyx/calibration/measures.py:108-136 | Row j reports its index, its two edges, that it is closed above exactly in the last bin, the number of observations assigned to it, the evidence level by the thresholds 0, 1 and min_bin, and, unless empty, their mean confidence and accuracy, the gap between them and its absolute value. |
| CalibrationError.CountsConserved | src/experionyx/calibration/measures.py:108-136 | The row counts add up to the number of observations. |
| CalibrationError.EceIsSpread | src/experionyx/calibration/measures.py:144-145 | n times the ECE is the sum over bins of the absolute total deviation. |
| CalibrationError.MceIsLargestGap | src/experionyx/calibration/measures.py:148-150 | MCE is attained by some occupied row and bounds the gap of every row; it is absent only when no row is occupied. |
| Reliability.CoarserSpreadsLess | src/experionyx/calibration/measures.py:144-145 | Merging bins never increases the spread. |
| CalibrationError.UniformNested | src/experionyx/calibration/measures.py:88-101 | A value in bin j of m*n uniform bins is in bin j div m of n. |
| CalibrationError.RefinementRaisesEce | src/experionyx/calibration/measures.py:88-145 | Hence the ECE with n uniform bins is at most the ECE with m*n, for every m >= 1. |
| CalibrationError.MetricsAreMeans | src/experionyx/calibration/measures.py:178-194 | There are metrics exactly for a non-empty list; then accuracy, mean confidence, overconfidence and the Brier score, each times n, are the number of correct predictions and the sums of confidences, deviations and squared deviations. |
| CalibrationError.ErrorsReadTheTable | src/experionyx/calibration/measures.py:178-194 | The ece and mce among the metrics are those of the table over the edges that the strategy makes: n times the one is the summed absolute deviation by bin, the other the largest gap of an occupied row. |
| CalibrationError.SquaredTilt | src/experionyx/calibration/measures.py:161-162 | The Cauchy-Schwarz step between the spread and the squared deviations. |
| CalibrationError.MetricChain | src/experionyx/calibration/measures.py:178-194 | For either strategy: |overconfidence| <= ece <= mce <= 1 and ece^2 <= brier_top_label <= 1. |
| Auroc.Auroc | src/experionyx/calibration/measures.py:239-248 | Sorting and bisecting computes the pairwise definition: wins plus half of the ties over all pairs, absent if a list is empty. |
| Auroc.AurocInUnit | src/experionyx/calibration/measures.py:239-248 | It lies in [0, 1]. |
| Auroc.AurocComplement | src/experionyx/calibration/measures.py:239-248 | auroc(p, n) + auroc(n, p) = 1 for non-empty lists. |
| Split.SplitIsPartition | src/experionyx/calibration/engine.py:168-173 | For two or more distinct ids the split is an exact partition into two non-empty disjoint parts, for any fraction and hash. |
| Split.SplitIgnoresOrder | src/experionyx/calibration/engine.py:168-173 | The split does not depend on the order of the ids. |
| Split.SharesFairly | src/experionyx/calibration/engine.py:172 | The calibration part is less than one id away from the requested fraction and leaves at least one id on either side. |
| Split.ShareIsNearest | src/experionyx/calibration/engine.py:172 | For any fraction the calibration part has the size between 1 and n - 1 that is nearest to fraction * n, the even one of two equally near. |
| Split.SplitFollowsHash | src/experionyx/calibration/engine.py:168-173 | Every id that calibrates has a smaller hash than every id that evaluates, or the same hash and a smaller id; both parts are listed in increasing order. |
| SplitCalibration.FitCalibrator | src/experionyx/calibration/engine.py:187-199 | A calibrator is fitted if and only if there are enough observations with both outcomes; too little data is reported as such. |
| SplitCalibration.SplitBlock | src/experionyx/calibration/engine.py:202-228 | SPLIT mode fits on the calibration part, evaluates exactly the other part and applies the fit to each of its confidences; fewer than two ids are not split, and without a fit nothing is calibrated. |
| Split.EvaluationDoesNotLeak | src/experionyx/calibration/engine.py:205-215 | Observations that differ only on evaluation samples give the same calibration data. |
| SplitCalibration.EvaluationCannotInfluence | src/experionyx/calibration/engine.py:205-228 | Hence they give the same calibrator. |
| SplitCalibration.CalibrationKeepsOrder | src/experionyx/calibration/engine.py:227 | Calibrated confidences are probabilities in the order of the raw ones. |
| RegistryLaws.AddKeepsSound | src/experionyx/sqlite.py:796-851 | An admitted record keeps ids unique, columns and payloads in step, references resolved to earlier records and execution attempts gap-free, and changes nothing stored. |
| RegistryLaws.UpdateKeepsSound | src/experionyx/sqlite.py:1028-1095 | So does a status update, which changes nothing but one status. |
| RegistryLaws.UpdateSucceedsIff | src/experionyx/sqlite.py:1078-1095 | In a sound registry an update succeeds exactly when the record exists and only its status changes along a legal transition: the compare-and-swap on the column does not fail. |
| Admission.AddWritesOne | src/experionyx/sqlite.py:838-851 | An admitted record was not there and becomes one more row, last in the order; every other row is as it was. |
| Admission.UpdateWritesOne | src/experionyx/sqlite.py:1078-1095 | A successful update stores the new version of one record and leaves every other row and the order as they were. |
| Admission.AdmittedIff | src/experionyx/sqlite.py:796-851 | A record is admitted exactly if no record has its identity, everything it mentions is stored as a record of the right kind, and it fits: provenance repeats its PENDING run, an outcome closes a started RUNNING run or fails a PENDING one with the right count, error and artifacts, an attempt has its unit's next number within one schedule. |
| Admission.RefusedFor | src/experionyx/sqlite.py:796-851 | Otherwise it is refused as a duplicate, for a missing reference, or as invalid, in this order. |
| Admission.UpdateAdmittedIff | src/experionyx/sqlite.py:1078-1095 | In a sound registry a status update succeeds exactly for a stored record of which only the status differs, along one of the listed moves. |
| Admission.UpdateRefusedFor | src/experionyx/sqlite.py:1078-1095 | Otherwise it is refused as unknown or as invalid, never as a concurrent change. |
| RegistryLaws.HistoryIsSound | src/experionyx/sqlite.py:796-1095 | Every history of additions and updates, refused ones included, leaves a sound registry. |
| RegistryLaws.AttemptsAreSegment | src/experionyx/sqlite.py:853-863 | The execution attempts of a schedule unit are numbered exactly 0 .. k-1, k being the number found. |
| RegistryLaws.AttemptAdmittedIff | src/experionyx/sqlite.py:853-863 | An execution attempt is admitted exactly with the next free number of its unit, for a unit and a schedule run of one schedule. |
| RegistryLaws.FindAgrees | src/experionyx/sqlite.py:1015-1026 | Indexed lookup returns exactly the records whose own fields have the requested values; a NULL column never matches. |
| Columns.FindIsExact | src/experionyx/sqlite.py:1015-1026 | Lookup is refused exactly for a column the table does not have; otherwise it returns exactly the records of the kind whose fields, written out column by column and status by status, have the requested values. |
| RegistryLaws.PathDescends | src/experionyx/sqlite.py:1113-1115 | Every step along a reference goes back in insertion order. |
| RegistryLaws.ReferencesAcyclic | src/experionyx/sqlite.py:796-851 | References resolve, and a walk along them never meets a record twice and is no longer than the registry. |
| SqliteRegistry.Connection.Enter | src/experionyx/sqlite.py:781-783 | Entering a block takes the write lock if it is the outermost and fails if another connection holds it. |
| SqliteRegistry.Connection.Exit | src/experionyx/sqlite.py:790-794 | Leaving the outermost block commits once and releases the lock; leaving an inner one does neither. |
| SqliteRegistry.Connection.Abort | src/experionyx/sqlite.py:786-789 | An exception through the outermost block rolls back once and releases the lock. |
| SqliteRegistry.Connection.Apply | src/experionyx/sqlite.py:796-851 | One admission and one statement inside their own block: all or nothing, with the exact condition and the error of refusal. |
| SqliteRegistry.Connection.Exec | src/experionyx/sqlite.py:776-794 | Running any client code restores depth and lock, changes the tables as specified and commits exactly what is visible at depth 0. |
| SqliteRegistry.NestedEndsNothing | src/experionyx/sqlite.py:776-794 | Nested blocks issue no COMMIT or ROLLBACK. |
| SqliteRegistry.EffectIsSurviving | src/experionyx/sqlite.py:776-794 | The tables after any code are its surviving writes applied in order, none of them refused. |
| SqliteRegistry.BlocksAreAtomic | src/experionyx/sqlite.py:776-794 | An exception escaping the outermost block leaves the committed state unchanged with one ROLLBACK; a normal exit commits every surviving write with one COMMIT. |
| SqliteRegistry.UnhandledBlocksAreAtomic | src/experionyx/sqlite.py:776-794 | Code without handlers that has a raise or a write refused in order, at any depth, leaves the tables unchanged with one ROLLBACK; otherwise all its writes are committed with one COMMIT. |
| SqliteRegistry.SwallowedErrorKeepsWrites | src/experionyx/sqlite.py:778-780 | An exception caught inside the outer block keeps the writes before it. |
| SqliteRegistry.ClientKeepsSound | src/experionyx/sqlite.py:776-1095 | Any client code, failing or not, keeps the registry sound and only adds to it. |
| Lifecycle.PairSucceedsIff | src/experionyx/execution.py:616-619 | A record and a status move in one transaction succeed exactly when each is admissible. |
| LifecycleSteps.AttemptsAreDense | src/experionyx/execution.py:571-580 | The attempts found are exactly the numbers below max + 1. |
| LifecycleSteps.NextRunIsFresh | src/experionyx/execution.py:571-581 | The computed attempt number is always free. |
| LifecycleSteps.CreateKeepsLifecycle | src/experionyx/execution.py:566-582 | Creating a run keeps the lifecycle invariant. |
| LifecycleSteps.StartKeepsLifecycle | src/experionyx/execution.py:616-619 | Provenance with RUNNING keeps it. |
| LifecycleSteps.CloseKeepsLifecycle | src/experionyx/execution.py:673-676 | An outcome with its status keeps it, if the stage is PREPARATION exactly for a PENDING run. |
| LifecycleSteps.AdditionKeepsRunsIff | src/experionyx/sqlite.py:796-851 | A single admitted addition keeps the correspondence of status, provenance and outcome exactly when it is no outcome, no provenance and no run that is not PENDING. |
| LifecycleSteps.UpdateKeepsRunsIff | src/experionyx/sqlite.py:1028-1095 | A single status update keeps it exactly when it is not a run's. |
| LifecycleSteps.RegistryAllowsOutcomeWithoutStatus | src/experionyx/sqlite.py:983-996 | An instance: the registry alone admits a failed outcome of any bare PENDING run, which leaves that run unfinished. |
| LifecycleSteps.RegistryAllowsReplayCycle | src/experionyx/sqlite.py:920-935 | The registry alone admits two PENDING runs recorded as replays of each other. |
| Witnesses.UnfinishedOutcomeIsAdmitted | src/experionyx/sqlite.py:983-996 | Seven additions to the empty registry, all admitted, leave a PENDING run with an outcome. |
| Witnesses.ReplayCycleIsAdmitted | src/experionyx/sqlite.py:920-935 | Eight additions to the empty registry, all admitted, make two runs replay each other. |
| Recording.CountsAgree | src/experionyx/execution.py:666-672 | The recorder's list has as many observations as the registry counts for the run. |
| Recording.ObserveSucceeds | src/experionyx/execution.py:100-110 | The next observation under a name is always admitted: sequence numbers have no gaps and no repeats. |
| RunRecorder.Recorder.Observe | src/experionyx/execution.py:100-110 | Stores the next observation and notes it; the notes stay in step with the registry; only the write lock can refuse it, and then nothing changes. |
| RunRecorder.Recorder.Register | src/experionyx/execution.py:112-129 | Stores and notes an artifact; refused exactly when the lock is held or the same file is registered already, and then nothing changes. |
| ExecutorSafety.PcIsStable | src/experionyx/execution.py:365-401 | A commit of another executor keeps everything an executor relies on. |
| ExecutorSafety.JobDone | src/experionyx/execution.py:566-687 | Each of the seven transactions keeps the lifecycle invariant, touches only its own run and justifies the executor's next position. |
| ExecutorSafety.CommitKeepsOk | src/experionyx/sqlite.py:790-794 | A commit keeps the invariant of the whole system. |
| ExecutorSafety.StepKeepsOk | src/experionyx/sqlite.py:786-789 | A statement, refused or not, leaves the committed tables alone; a refused one rolls back and takes the exception path. |
| ExecutorSafety.NextKeepsOk | src/experionyx/execution.py:335-464 | Every step of every executor or other client, crashes and failures included, keeps the system invariant, and the registry only grows. |
| ExecutorSafety.TraceKeepsOk | src/experionyx/execution.py:335-464 | So does every interleaving of any length. |
| ExecutorGuarantees.EveryCommittedStateIsOk | src/experionyx/execution.py:365-401 | In every committed state: PENDING has neither provenance nor outcome, RUNNING has provenance and no outcome, a finished run has an outcome of its status, and FAILED lacks provenance exactly when the stage is PREPARATION. |
| ExecutorGuarantees.AttemptsHaveNoGaps | src/experionyx/execution.py:566-582 | For every experiment, environment and seed the attempts made by any number of executors are exactly 0 .. k-1. |
| ExecutorGuarantees.FinishedRunsAreFinal | src/experionyx/execution.py:335-348 | No later step changes a finished run, its outcome, its provenance or the absence of provenance. |
| Requests.StartsWereAsked | src/experionyx/execution.py:335-430 | In every trace from executors at rest, a run that starts was asked for: its provenance names the experiment, seed and original that a call of execute named, or that a call of replay found on record for the finished run it named. |
| Causes.StartIsRemembered | src/experionyx/execution.py:584-623 | From the commit of a start on, through any steps of anyone, the run's provenance is what the start recorded: its process, time, experiment, environment, configuration, seed and original. |
| Causes.LiveRunIsNotAbandoned | src/experionyx/execution.py:440-443 | So a run started by a process that is alive is never among those that recovery closes. |
| Causes.OutcomesHaveCauses | src/experionyx/execution.py:372-401 | In every trace from executors at rest, a stored outcome says what happened: the run failed in preparation, or its procedure ended as the outcome says (COMPLETED only after a return with verified artifacts, FAILED at the stage and with the error of what was raised), or recovery found no live process on record and exactly the listed artifacts. |
| ReplayLinks.NextKeepsReplays | src/experionyx/execution.py:403-430 | If callers of execute name only started runs of the experiment, as replay does, every step keeps each replay link pointing at provenance recorded earlier in the same experiment. |
| ReplayLinks.ReplaysFormForest | src/experionyx/execution.py:403-430 | Under that invariant following replays never returns to a run, ends, and stays in one experiment. |
| ReplayLinks.ReachedReplaysFormForest | src/experionyx/execution.py:403-430 | So it does in every state that any number of executors with such callers reach. |
| ReplayCycles.LinkClosesIff | src/experionyx/sqlite.py:930-935 | One more replay link keeps acyclic links acyclic exactly when its original does not lead back along them to the run. |
| ReplayCycles.StartClosesIff | src/experionyx/sqlite.py:930-935 | A start as a replay keeps the registry acyclic exactly when following replays from the original does not reach the run being started: a condition on the tables before the write. |
| ReplayCycles.NextClosesIff | src/experionyx/execution.py:335-430 | Any other step, whoever calls, keeps acyclic links acyclic. |
| ReplayCycles.ReachedIsAcyclicIff | src/experionyx/execution.py:335-430 | Whoever calls execute with whatever replay_of: the links any number of executors reach are acyclic exactly when no committed start's original led back to its run. |
| ReplayCycles.CarefulNeverCloses | src/experionyx/execution.py:403-430 | Callers who name started runs never close a cycle. |
| ReplayCycles.ReachedLinksStayWithin | src/experionyx/sqlite.py:930-935 | Replay links never leave an experiment, whoever calls. |
| Witnesses.CrossedRunsCycle | src/experionyx/execution.py:335-348 | Any two prepared runs of one experiment that name each other start undisturbed and commit a replay cycle. |
| Witnesses.CarelessCallersReachCycle | src/experionyx/execution.py:335-348 | From nothing, two executors whose callers pass each other's foreseeable run id as replay_of commit a replay cycle. |
| ExecutorGuarantees.FinalizerRefusedIff | src/experionyx/execution.py:661-676 | The finalizing transaction is refused exactly when recovery closed the run first. |
| RecoveryPass.RescueRefusedSince | src/experionyx/execution.py:444-461 | From the step that counts a run's observations, through anything the executors do while the run is still being closed: that transaction is refused exactly when the run has been closed or an observation of it added since the count. |
| ExecutorGuarantees.RecoveryRefusedIff | src/experionyx/execution.py:444-461 | The recovering transaction is refused exactly when the run was closed or an observation of it was added since the count was taken. |
| ExecutorGuarantees.StartAdmittedIff | src/experionyx/execution.py:584-623 | The starting transaction is refused exactly for a replay of itself, of no run or across experiments. |
| ExecutorGuarantees.GivingUpSucceeds | src/experionyx/execution.py:625-641 | The failure of a run that never started can always be recorded. |
| ExecutorGuarantees.OutcomeAdmittedIff | src/experionyx/sqlite.py:983-996 | An outcome is admitted exactly when its artifacts are its run's, the transition is legal and the observation count is right; that it is the first and that a running run has provenance follows. |
| ExecutorGuarantees.ProvenanceAdmittedIff | src/experionyx/sqlite.py:920-935 | Provenance is admitted exactly for a PENDING run whose experiment, environment, seed and configuration it repeats, as a replay of nothing or of a run of the same experiment. |
| RecoveryPass.ScanFinds | src/experionyx/execution.py:439 | A pass finds exactly the runs that are RUNNING when it begins. |
| RecoveryPass.RecoveryIsComplete | src/experionyx/execution.py:432-464 | From the scan of an idle executor, whatever it and the others do short of its next scan: if the pass comes to its end, every run that was RUNNING at the scan is FAILED as interrupted or was examined in this pass and its recorded process reported alive. |
| Execution.Executor.Transact | src/experionyx/sqlite.py:776-794 | A transaction around a script succeeds exactly when the lock is free and no statement is refused; otherwise nothing changes. |
| Execution.Executor.CreateRun | src/experionyx/execution.py:566-582 | Creates the one new run of the experiment and seed in this environment, under the first free attempt number and at this time; fails exactly with the lock or the environment snapshot, and then writes nothing. |
| Execution.Executor.StartRun | src/experionyx/execution.py:584-641 | Starts the run exactly when the preparation succeeds and the replay is admissible, with provenance that states its process, time, experiment, environment, configuration, seed and original; otherwise records it as failed in preparation, with no provenance, observations or artifacts. |
| Execution.Executor.RunCall | src/experionyx/execution.py:100-129 | A call of the procedure fails exactly when it registers a file that an earlier call registered, and then changes nothing; else what it asked for is stored as asked. |
| Execution.Executor.RunCalls | src/experionyx/execution.py:381-391 | The procedure's calls run to their end exactly when no unhandled one registers a file again. Each observation is stored with its value, numbered by the earlier ones under its name, each file once; the notes count them. |
| Execution.Executor.Diagnose | src/experionyx/execution.py:655-660 | A failure keeps its stage whether or not its diagnostic can be stored; it is stored and named in the failure exactly if the procedure had not registered that very file. |
| Execution.Executor.Finalize | src/experionyx/execution.py:661-676 | The outcome written has the recorder's count, its artifacts, the failure and the present time, and the run takes its status: FAILED exactly with an error. |
| Procedures.FailureOf | src/experionyx/execution.py:382-391 | A procedure leaves no error exactly if it returns with verified artifacts and no call failed unhandled; a failed call is an EXECUTION failure, unverified artifacts an ARTIFACT_REGISTRATION failure, and what is raised keeps its stage and type. |
| Procedures.WorkIsAccounted | src/experionyx/execution.py:661-676 | Once the run is closed, its observations and files are exactly what the calls that were made asked for, and its outcome states their number and lists exactly those files and the diagnostic of a failure. |
| Execution.Executor.Execute | src/experionyx/execution.py:335-401 | A run is created and started exactly when the experiment is READY, RUNNING or COMPLETED, the lock free, the environment snapshot admissible, the preparation successful and replay_of, if given, a run of the experiment. It is the next attempt, its provenance states its process, time, environment, configuration, seed and original, its records are what the calls asked for, and its outcome accounts for them: COMPLETED exactly when the calls do not fail and the procedure returns with verified artifacts, else FAILED at the stage of the failure. The outcome is returned, except that an interrupt is raised again. Earlier runs are untouched; a refused call wrote nothing or a run that failed in preparation. |
| Execution.Executor.Replay | src/experionyx/execution.py:403-430 | The same for a new run of the same experiment and seed that names the original; it begins exactly for a finished run with provenance whose experiment can be executed, with a free lock and a successful preparation, and for any other run nothing is written. |
| Recovery.CloseInterrupted | src/experionyx/execution.py:444-461 | Closes one abandoned run as FAILED at stage INTERRUPTED, with its count of observations, its artifacts and the time, and changes nothing else. |
| Recovery.RecoverInterrupted | src/experionyx/execution.py:432-464 | Closes exactly the RUNNING runs without a live process, each with its count, its artifacts, the time and the error recorded for a process that ended, and nothing else, after which a second call finds none; only the write lock can stop it, before anything is written. |
| Keys.KeysAreInjective | src/experionyx/benchmark/protocol.py:276-328 | Units of different kind, grid, point, pair, cell or seed have different keys even if names contain ':' or '+'. |
| Keys.DecimalDenotes | src/experionyx/benchmark/protocol.py:283 | The number in a key is the decimal numeral, without leading zeros, that denotes it. |
| BenchmarkSpec.CanonicalIgnoresOrder | src/experionyx/benchmark/spec.py:266-286 | Listing grids, pairs or seeds in another order gives the same definition or the same refusal. |
| BenchmarkSpec.CanonicalAcceptedIff | src/experionyx/benchmark/spec.py:266-286 | A definition is accepted exactly if it has a grid, grid names and pair names a+b do not repeat, and the seeds are non-empty, distinct and non-negative; the first of these that fails is the one it is refused for. |
| BenchmarkSpec.CanonicalIsSorted | src/experionyx/benchmark/spec.py:273-286 | The canonical lists are the given ones in lexicographic order of grid name, of pair by first and then second grid, and in increasing order of seed. |
| BenchmarkSpec.CanonicalIsOk | src/experionyx/benchmark/spec.py:266-286 | An accepted definition has distinct grid names, pair names and seeds, and at least one grid and seed. |
| BenchmarkSpec.DifferentPairsMayCollide | src/experionyx/benchmark/spec.py:140-142 | Two different pairs can share a name and are then refused as duplicates. |
| Protocol.UnitsAreExactly | src/experionyx/benchmark/protocol.py:272-328 | The units are exactly the baseline, one trial per supported grid, point and seed, and one cell per pair, order and seed. |
| Protocol.UnitsSize | src/experionyx/benchmark/protocol.py:272-328 | There are 1 + points * seeds over supported grids + (1 or 2) * seeds over pairs of them. |
| Protocol.KeysAreUnique | src/experionyx/benchmark/protocol.py:340-341 | No two units share a key. |
| Expansion.NoIssuesIff | src/experionyx/benchmark/protocol.py:162-270 | Validation reports nothing exactly when every grid is usable or tolerated and every pair names tested points of supported grids and composes. |
| Expansion.IssuesAreExactly | src/experionyx/benchmark/protocol.py:162-270 | An issue is reported exactly if it was found before, is the problem of a grid or of one side of a pair, written out code by code, or says that a pair does not compose under whose name nothing else is reported. |
| Expansion.CheckGrids | src/experionyx/benchmark/protocol.py:160-220 | Collects one issue per unusable grid in order, the usable grids by name and the tolerated unsupported ones. |
| Expansion.CheckPairs | src/experionyx/benchmark/protocol.py:221-268 | Adds the issues of both roles of each pair, and tries composition only where nothing else mentions the pair. |
| Faults.SeedIsAllThatDiffers | src/experionyx/faults/lab.py:67-69 | The fault of a grid point under two seeds differs in the seed only. |
| Faults.PointInjects | src/experionyx/benchmark/protocol.py:76-92 | The fault of a grid point has the grid's kind, version and scope, the trial's seed and the grid's parameters, with the swept one set to exactly the point's value. |
| Faults.CompoundOfPoints | src/experionyx/faults/lab.py:55-64 | A compound of two points, reseeded, holds those points' faults with the seeds derived from its own and their positions. |
| Expansion.InteractionsReuseTrials | src/experionyx/benchmark/protocol.py:293-328 | The A and B points recorded for a pair are trials of the protocol under every seed, with the exact faults of those points, and the compound cells hold the same faults reseeded by position. |
| Expansion.UnitsTestEverything | src/experionyx/benchmark/protocol.py:272-328 | Every point of every supported grid is tested under every seed by a unit with the key fault:grid:point:seed that injects exactly that point's fault, and every cell of every pair by a unit with the key interaction:pair:cell:seed whose two components inject exactly the two named points' faults, in the cell's order and under the derived seeds. |
| Expansion.UnitIsJustified | src/experionyx/benchmark/protocol.py:272-328 | And no unit is anything else, the baseline apart. |
| Expansion.PairsAreRecorded | src/experionyx/benchmark/protocol.py:293-309 | Exactly the definition's pairs are recorded, each with its grids, the index of the point it names in either and whether its order is analysed. |
| Expansion.CellRepeatsTrialsIff | src/experionyx/benchmark/protocol.py:296-298 | A cell's components are the reused trials' faults, seeds included, exactly when the derived seeds equal the trial's. |
| Expansion.GridsAreAccountedFor | src/experionyx/benchmark/protocol.py:193-203 | Every grid is expanded or listed as unsupported, and only incompatible grids are listed. |
| Expansion.Expand | src/experionyx/benchmark/protocol.py:115-354 | Expands exactly the acceptable definitions, within max_units, into units with unique keys that test every supported point and every cell with exactly its fault and nothing else; otherwise reports every issue, or the unit count. |
| Coverage.ResolveUnits | src/experionyx/benchmark/collect.py:144-190 | Every unit gets one row in order: the baseline by its run; a trial by the record of its own grid, point and seed, or of its own pair, cell and seed: that record's status, run and reason; without one NOT_RUN with the error recorded for the grid or the pair and cell, or the default text. |
| Coverage.TrialsAreConserved | src/experionyx/benchmark/collect.py:600-644 | Requested trials = completed + failed + skipped + not run. |
| Coverage.FamilyIsConserved | src/experionyx/benchmark/collect.py:279-294 | The same within one fault family. |
| Coverage.FamiliesAddUp | src/experionyx/benchmark/collect.py:269-294 | The families' counts add up to the global count, status by status. |
| Coverage.CoverageConservesUnits | src/experionyx/benchmark/collect.py:600-644 | Both hold for the rows of every expanded benchmark. |
| Coverage.CollectReasons | src/experionyx/benchmark/collect.py:616-638 | The reasons collected are exactly the ones that are due, with the number of incomplete units and of excluded grids. |
| Coverage.NoReasonIff | src/experionyx/benchmark/collect.py:639-640 | No reason is due exactly when every requested analysis except the fault analyses is there and conclusive, every unit completed, no grid was excluded and every family was tested. |
| Coverage.CollectResponses | src/experionyx/benchmark/collect.py:267-360 | One response per grid that was not excluded, in order: UNAVAILABLE with the reason without a fault experiment or a readable analysis, else OBSERVED if some point has a completed trial and INSUFFICIENT_EVIDENCE if none has. |
| Coverage.InResponses | src/experionyx/benchmark/collect.py:267-360 | The responses are exactly those so described, of the grids that were not excluded. |
| Coverage.Collect | src/experionyx/benchmark/collect.py:193-640 | The account consists of the resolved units, the responses so described and exactly the reasons due. |
| Coverage.CompleteIff | src/experionyx/benchmark/collect.py:616-640 | An expanded benchmark is COMPLETE exactly when everything requested besides the fault analyses was obtained, every unit completed and no grid was excluded; that every family was tested follows. |
| Coverage.CompleteHasExperiments | src/experionyx/benchmark/collect.py:147 | In a COMPLETE account every grid has a fault experiment. |
| Coverage.UnavailableIff | src/experionyx/benchmark/collect.py:312-360 | In a COMPLETE account every grid has a response, UNAVAILABLE exactly when its stored analysis fails to load. |
| Coverage.LoadingGoesUnnoticed | src/experionyx/benchmark/collect.py:358-360 | Units, reasons and COMPLETE are the same whatever loading the analyses gives. |
| Coverage.PromiseKeptIff | src/experionyx/benchmark/taxonomy.py:23 | A COMPLETE account has an available response for every grid exactly when no stored analysis fails to load. |
| Coverage.UnreadableAnalysisGoesUnnoticed | src/experionyx/benchmark/collect.py:358-360 | An accepted, expanded benchmark with all its units completed is COMPLETE although the response of its only grid is UNAVAILABLE. |

## Left out

- SQL text, DDL, triggers, migrations and integrity hashes: tables are values; a failing COMMIT and the wait for the lock are not modelled beyond success or refusal.
- Hashing and canonical JSON: a record's id is its identity fields, so equal ids mean equal identities; the seeded SHA-256 of the split is an arbitrary function.
- Registry kinds beyond experiments, runs and their records, schedule units, schedule runs and execution attempts: they are `Other` records admitted on their references; the kind-specific checks on evidence, fault trials, failure records, bindings and analyses, and the status of schedule runs, are not modelled.
- Admission.RefusedFor: the error of a refused record does not follow the order of the code where that checks references twice; a reference that is missing is reported as such.
- Store.Find: the result is a map by id, so its order by id is not modelled.
- Store.CheckProvenance: adapter inputs and their fingerprints, source revision and runtime are not modelled, since they do not enter the lifecycle.
- ExecutorGuarantees.ProvenanceAdmittedIff: does not include the checks that adapter inputs match the registered model and dataset, which a record with inputs must also pass.
- Executors.Next: a procedure that observes for other runs, writes run records itself, or rolls back its own transaction around `observe` is excluded.
- Executors.Failing: an interrupt during preparation, which leaves the run PENDING, is a crash followed by a new request.
- Execution.Executor.RunCalls: the recorder's notes are a value there; `RunRecorder.Recorder` is the object that updates them in place. The unit and kind of an observation and the name, category and media type of an artifact are not modelled.
- Recovery.RecoverInterrupted: runs against an otherwise idle registry; races are covered by `RecoveryPass.RecoveryIsComplete`. PENDING runs left by a crash are not recovered by the program either.
- Files and processes: artifact bytes, the metadata files beside them, environment and source capture, loading of models and datasets; pid liveness, artifact verification and preparation are parameters, and so are clock readings, of which one call takes a single one.
- Validation of names, timestamps, observation values and other fields by the record constructors, apart from the outcome and provenance rules.
- Floating-point rounding: `fsum`, division and comparison are exact.
- Platt scaling, log loss, entropy, margins, vector scores, class-wise metrics, Wilson intervals, bootstrap and permutation comparisons: transcendental functions or randomness.
- Reading and classifying stored observations (`load_run`, `to_obs`) and the separate-run calibration protocol: the model starts from (confidence, correct) pairs.
- Expansion.Expand: models, datasets, metrics and fault types are looked up elsewhere; their findings are parameters (`preliminary`, `verdict`, `composable`). Warnings and protocol hashes are not modelled.
- Coverage.Collect: the contents of the analyses, statements and documents that `collect` assembles are reduced to whether each was there and conclusive; of a stored fault analysis, the completed trials per point remain.
- Faults.BaseFault: a fault's version is the one the grid pins, not the one the fault library resolves it to; parameters are not validated, and nested compounds do not arise from grids.
- Reliability.Curve: does not model the Wilson interval of a row.
- SplitCalibration.FitCalibrator: does not model the Platt method, only the isotonic one.
- Scheduler, failure discovery, slices, drift, stress, resources, data quality, CLI, API and demonstrations: only their statuses appear.
