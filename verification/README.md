# EDL-SmartGrid core, modelled in Dafny

EDL-SmartGrid detects electricity fraud in buildings. Its anomaly engine scores every
building, fuses the scores into ranks and flags the most anomalous share of them. A web
back end turns the flags into inspection cases, assigns the cases to inspectors and
keeps versioned model cards.

This project models the deterministic rules around that engine, one Dafny module per
source file:

- **Scoring and model bookkeeping**
  - rank fusion and top-k flagging at inference (`Inference`);
  - the artifact and column checks (`Inference`);
  - percentile thresholding and the definedness guards of the partition metrics (`Ocsvm`);
  - the Dunn index over an abstract distance matrix (`Ocsvm`);
  - the versioned model registry and its single active card (`Registry`);
  - the in-memory training-job store (`TrainingStatus`);
  - the frozen residual artifact versus refitting (`SharedFeatures`).
- **Input cleaning**
  - header normalisation and CSV validation (`Validation`);
  - the drift report (`Drift`);
  - zero-to-missing, imputation rounding and derived ratios (`ImputeRules`);
  - schema coercion (`UtilsSchema`);
  - feature engineering (`Engineering`);
  - one-row inference frames (`Preprocess`);
  - the feature-engineering script's renaming and checks (`FeatureEngineeringTest`).
- **Tuners**
  - the composite scores (`TunerScore`);
  - Sobol snapping, cleanup, de-duplication, padding and successive halving (`AshaTuner`);
  - grid enumeration (`Grid`);
  - the trial tables and best tracking (`Trials`, `FullGridTuner`, `SlowTuner`);
  - the budget and patience search (`FastTuner`);
  - the One-Class SVM sweep (`OcsvmTuner`).
- **Operations**
  - inspector access, appointment transitions, clustering and the greedy route (`InspectorRouter`);
  - suggestions and auto-assignment (`ManagerScheduling`);
  - week bounds (`WeekBounds`);
  - the case tracker and the report review (`CaseTracker`);
  - user administration (`UserAdmin`);
  - role names (`RoleNames`);
  - tickets (`Tickets`);
  - uploads, version flags and case creation (`DataOps`);
  - feedback analytics (`Reports`).

Shared modules hold the generic pieces:

- `Wrappers`: `Option` and `Result`.
- `Numeric`: floats as exact reals extended with NaN and infinities, Python's half-to-even `round`, truncation.
- `Text`: ASCII lower-casing, Python whitespace, stripping and search.
- `Sorting`: a stable sort and `argsort`.
- `Frames`: a table as a sequence of named columns; a duplicated name is looked up as its first column.

Code that updates state in place is modelled as Dafny classes and methods:

- the registry, the job store, the feature-engineering frame, users, cases, tickets and appointments;
- the source's loops, with their invariants.

Each method is proved against a specification function, and the lemmas state what the
source promises about that function. Foreign numerics are function parameters:

- the scorers, the scalers and PCA;
- KNN imputation and Yeo-Johnson;
- silhouette and Davies-Bouldin;
- haversine distances;
- standard deviations and random draws.

Errors are `Result` values carrying the exception or the HTTP status.

## Model

| member | source | states |
|---|---|---|
| RoleNames.NormalizeRole | backend/models/user.py:36-53 | the normalised role is never empty |
| RoleNames.NormalizeMeaning | backend/models/user.py:42-53 | the four roles in any letter case map to "Admin", "Manager", "Inspector", "Citizen"; canonical names are kept; any other role is lower-cased |
| RoleNames.NormalizeIdempotent | backend/models/user.py:36-53 | normalising a normalised role changes nothing |
| WeekBounds.Weekday | backend/utils/assign.py:14 | the weekday is in 0..6 |
| WeekBounds.Midnight | backend/utils/assign.py:15 | midnight of a datetime's date is at most the datetime and less than one day before it |
| WeekBounds.WeekStartMeaning | backend/utils/assign.py:13-15 | the week's start is a Monday at 00:00, and `dt` lies in the seven days that begin there |
| WeekBounds.BoundsMeaning | backend/utils/assign.py:13-17 | as written: the start is dt's Monday at 00:00 and the end is seven days less one second later; every datetime of that week gives the same bounds |
| WeekBounds.SameWeek | backend/utils/assign.py:13-17 | every datetime in the seven days from a Monday midnight has that Monday as its week start |
| WeekBounds.WeekStartOf | backend/utils/assign.py:14-15 | a time `d < 7` days and less than a day after a Monday midnight has that midnight as its week start |
| WeekBounds.LastSecondEscapes | backend/utils/assign.py:16 | as written, a datetime in the last second of a Sunday that has a fractional second lies after its own week's end |
| WeekBounds.IntendedBoundsMeaning | backend/utils/assign.py:13-17 | with the end at the last microsecond of the week, a datetime lies between its own bounds, inclusive, exactly when it is in that week |
| Drift.Spread | backend/utils/drift.py:24 | the reference spread is the deviation when that compares greater than 0, else 1.0 (also for NaN) |
| Drift.Shared | backend/utils/drift.py:20-22 | a column is kept exactly when it is in the list and present in both frames |
| Drift.SimpleDriftReport | backend/utils/drift.py:16-36 | the loop's report is the report of the three key columns |
| Drift.ReportColumn | backend/utils/drift.py:21-35 | one pass of the loop appends the column's entry when both frames have it and nothing otherwise |
| Drift.ReportColumns | backend/utils/drift.py:20-22 | the report lists exactly the shared columns, in the order of the key columns |
| Drift.ReportStep | backend/utils/drift.py:20-35 | one more column adds its entry exactly when both frames have it |
| Drift.ReportEntries | backend/utils/drift.py:23-35 | every entry of the report is its column's entry: the two means, the z-score and the flag |
| Drift.EntryMeaning | backend/utils/drift.py:23-33 | the z-score is abs(mean_new - mean_ref) / sd_ref with a non-zero divisor, it is never negative, and the flag holds exactly when it strictly exceeds the threshold |
| Preprocess.FirstMissingKey | backend/utils/preprocess.py:4-17 | the key the lookup fails on is a required key the body lacks; there is none exactly when every required key is present |
| Preprocess.OneRow | backend/utils/preprocess.py:5-17 | the one-row frame has the nine building columns in order, each holding one value |
| Preprocess.ToDataFrameOneShape | backend/utils/preprocess.py:4-17 | the frame exists exactly when every required key is present; it then has one row, a missing building code is null, and every other value is as given |
| Preprocess.ConstMinus | backend/utils/preprocess.py:22 | element by element, `c - s`, with the length kept |
| Preprocess.PerUnit | backend/utils/preprocess.py:23-25 | element by element, `num / (den + 1e-6)` over the shared rows, with the length of `num` |
| Preprocess.AddDerivedFails | backend/utils/preprocess.py:20-26 | `add_derived` fails exactly when an input column is absent, and the error names one of them |
| Preprocess.AddDerivedColumns | backend/utils/preprocess.py:20-26 | on success, age = 2025 - year of construction, each ratio is consumption over its denominator plus 1e-6, and every other column is unchanged |
| Preprocess.PerUnitDefined | backend/utils/preprocess.py:23-25 | over a finite non-negative denominator the ratio is the finite number num / (den + 1e-6) |
| Tickets.Split | backend/routers/tickets.py:29 | the parts of a path split at "/" are never an empty list, hold no "/", and use only characters of the path |
| Tickets.BaseName | backend/routers/tickets.py:29 | a path's file name holds no "/" and only characters of the path |
| Tickets.PublicPhotoPathMeaning | backend/routers/tickets.py:20-29 | the public path starts with "data/" and holds no backslash; a path already under "data/" (after backslashes become slashes) is kept, one containing "data/uploads" is cut at its first occurrence, any other becomes "data/uploads/" and its file name |
| Tickets.PublicPhotoPathIdempotent | backend/routers/tickets.py:20-29 | exposing an exposed path again changes nothing |
| Tickets.AllowedPhotoCaseless | backend/routers/tickets.py:61 | the photo type check ignores letter case |
| Tickets.Ticket.constructor | backend/routers/tickets.py:71-77 | a new ticket holds its owner, subject, description and photo path, with status "New" |
| Tickets.SubmitTicket | backend/routers/tickets.py:49-86 | a non-image upload is 400; otherwise a fresh "New" ticket owned by the caller, whose photo path is the stored upload path under "data/uploads/" or none |
| Tickets.AddFollowUp | backend/routers/tickets.py:131-162 | 404 for a missing ticket, 403 for another citizen's, 400 for a non-image upload, and then the description is unchanged; on success the follow-up text is appended; owner, status and photo never change; an existing ticket the caller may access always succeeds with no file or an image file |
| Tickets.FollowUpKeepsDescription | backend/routers/tickets.py:159 | a follow-up only extends the description: the old text is a proper prefix of the new |
| UserAdmin.DisplayName | backend/routers/users.py:39 | the profile name is the full name when present, else the email when present, else "Inspector " and the first eight characters of the id |
| UserAdmin.Directory.constructor | backend/routers/users.py:13-31 | a directory starts from the given users and profiles |
| UserAdmin.Directory.UpdateRole | backend/routers/users.py:88-128 | the method's errors, new users and new profiles are those of the role update function, and an error changes nothing |
| UserAdmin.Directory.EnsureInspectorProfile | backend/routers/users.py:33-53 | activating creates or renames and activates the profile; deactivating marks an existing profile inactive and creates none; users are untouched |
| UserAdmin.Directory.SuspendUser | backend/routers/users.py:135-151 | 404 for a missing target, 400 when suspending an Admin with at most one active, otherwise the target's active flag is set; an error changes nothing, profiles never change |
| UserAdmin.RoleDecisionMeaning | backend/routers/users.py:101-116 | nobody changes their own role (403); roles other than Admin and Manager are refused (403); a Manager's accepted change stays between Citizen and Inspector; an Admin is refused exactly when demoting an Admin with at most one active |
| UserAdmin.RoleUpdateKeepsAdmin | backend/routers/users.py:108-111 | with at least one active Admin before, a successful role update leaves at least one |
| UserAdmin.SuspensionKeepsAdmin | backend/routers/users.py:144-146 | with at least one active Admin before, a successful suspension leaves at least one |
| UserAdmin.RoleUpdateProfiles | backend/routers/users.py:118-124 | after a successful update the target has the new role and no other user changes; becoming Inspector leaves an active profile under the display name; leaving Inspector deactivates an existing profile and creates none; other profiles stay as they were |
| TrainingStatus.ClampProgress | backend/ml/training_status.py:45-46 | the stored progress is in [0, 1]: a value in range is kept, above 1 gives 1, below 0 gives 0, NaN and +inf give 1 (as Python's `min`/`max` treat them), -inf gives 0 |
| TrainingStatus.ApplyUpdate | backend/ml/training_status.py:22-52 | each given keyword overwrites its field and an absent one keeps it; progress is clamped; started_at is set only when unset and the status becomes "running"; finished_at is set on every move to "completed" or "failed" |
| TrainingStatus.UpdatesKeepProgressInRange | backend/ml/training_status.py:45-46 | whatever updates follow, a record's progress stays in [0, 1] |
| TrainingStatus.StartedAtNeverOverwritten | backend/ml/training_status.py:37-38 | once set, started_at survives every later update |
| TrainingStatus.StartedAtIsFirstRun | backend/ml/training_status.py:35-38 | from an unset started_at, it ends up set exactly when some update sets the status to "running", and then holds the time of the first such update |
| TrainingStatus.TrainingJobs.constructor | backend/ml/training_status.py:5 | the job table starts empty |
| TrainingStatus.TrainingJobs.InitTrainingJob | backend/ml/training_status.py:8-19 | the record for the id is created or overwritten as a queued job at progress 0, and every record stays keyed by its own id with progress in [0, 1] |
| TrainingStatus.TrainingJobs.UpdateTrainingStatus | backend/ml/training_status.py:22-33 | an unknown id changes nothing; otherwise only that record changes, by the update, and the table stays valid |
| TrainingStatus.TrainingJobs.GetTrainingStatus | backend/ml/training_status.py:55-64 | a known id gives its stored record; an unknown one the four-key default with status and stage "unknown" and progress 0, which is not inserted |
| SharedFeatures.ArtifactXCols | backend/ml/shared_features.py:58 | the artifact's x_cols when given and non-empty, else the training x_cols |
| SharedFeatures.CorrThreshold | backend/ml/shared_features.py:40 | a correlation threshold is passed exactly when dropping correlated features, and it is 0.85 |
| SharedFeatures.Residuals | backend/ml/shared_features.py:72 | the residual is y - y_pred row by row |
| SharedFeatures.AbsCells | backend/ml/shared_features.py:73 | the absolute residual is the absolute value row by row |
| SharedFeatures.ArtifactInput | backend/ml/shared_features.py:68 | the artifact's input frame holds exactly the artifact's columns, in their order |
| SharedFeatures.ArtifactResidual | backend/ml/shared_features.py:56-77 | with a missing artifact column there is no residual; otherwise there is one exactly when the prediction succeeds with one value per row, and it is y - y_pred |
| SharedFeatures.ApplyResidualArtifact | backend/ml/shared_features.py:68-74 | the engineered frame gains the residual and its absolute value exactly when the artifact applies, and is otherwise unchanged |
| SharedFeatures.Preprocess | backend/ml/shared_features.py:10-86 | the method computes the value of `preprocess_like_training` |
| SharedFeatures.MissingColumnsRaise | backend/ml/shared_features.py:47-52 | the call fails exactly when a residual input column is missing after feature engineering, naming the missing ones, whatever the artifact |
| SharedFeatures.ArtifactApplied | backend/ml/shared_features.py:56-74 | when the artifact applies, the result is the winsorised frame with the artifact's residual and its absolute value, and every other column is as engineered |
| SharedFeatures.FallsBackToRefit | backend/ml/shared_features.py:63-79 | without an artifact, or when it cannot be applied, the residual is refitted |
| SharedFeatures.MissingArtifactColumnRefits | backend/ml/shared_features.py:62-66 | an artifact column absent from the frame makes the artifact unusable |
| UtilsSchema.PresentRenames | src/preprocessing/utils_schema.py:32 | the rename map holds exactly the canonical-map keys present in the frame, each with its canonical name |
| UtilsSchema.RenameByPresentKeys | src/preprocessing/utils_schema.py:32 | after renaming, each column carries its canonical name and its cells unchanged |
| UtilsSchema.CoerceCells | src/preprocessing/utils_schema.py:35-43 | a successful coercion keeps the length; float and string coercion always succeed; Int64 succeeds exactly when every numeric value is integral or missing |
| UtilsSchema.StandardizeColumns | src/preprocessing/utils_schema.py:31-44 | the in-place loop leaves the frame equal to the standardised frame |
| UtilsSchema.CoerceColumn | src/preprocessing/utils_schema.py:34-43 | one pass of the loop casts every column of a string name to text, or coerces a number column present once, and keeps it when the cast raises or the name is duplicated |
| UtilsSchema.CoerceKeepsNames | src/preprocessing/utils_schema.py:33-43 | coercion never changes the column names |
| UtilsSchema.StandardizedNames | src/preprocessing/utils_schema.py:31-44 | the result has as many columns as the input, each with its canonical name; names outside the map are kept, and "kwh" stays "kwh" |
| UtilsSchema.CoerceStepOther | src/preprocessing/utils_schema.py:33-43 | coercing one column leaves every other column as it was |
| UtilsSchema.CoercedColumn | src/preprocessing/utils_schema.py:31-44 | each typed column is present after standardisation exactly when present after renaming, and then holds its coerced cells, or its renamed cells when the cast raises or a number column's name is duplicated |
| UtilsSchema.StringColumnsCoerced | src/preprocessing/utils_schema.py:40-41 | every column of a string name is cast to text cell by cell, including each copy of a name that renaming duplicated |
| UtilsSchema.FloatColumnsCoerced | src/preprocessing/utils_schema.py:38-39 | a float column present once becomes `pd.to_numeric(errors="coerce")` of its cells, row by row |
| UtilsSchema.IntColumnsCoercedOrKept | src/preprocessing/utils_schema.py:36-37 | an Int64 column either stays as it was, when the cast raises, or holds only integral or missing numbers |
| ImputeRules.ZeroToNan | src/preprocessing/impute_rules.py:9 | a zero or missing cell becomes NaN; any other cell is kept |
| ImputeRules.ZeroToNanCells | src/preprocessing/impute_rules.py:9 | the column keeps its length and each cell is mapped as above |
| ImputeRules.FixZeroToNan | src/preprocessing/impute_rules.py:6-10 | the in-place loop leaves the frame equal to the fixed frame |
| ImputeRules.ZeroColumnInPlace | src/preprocessing/impute_rules.py:8-9 | one pass of the loop fixes one column in place |
| ImputeRules.ZeroStepOther | src/preprocessing/impute_rules.py:8-9 | fixing one column leaves every other column as it was |
| ImputeRules.ZeroStepSelf | src/preprocessing/impute_rules.py:8-9 | fixing a column maps its cells and keeps it present exactly when it was |
| ImputeRules.FixZeroKeepsOthers | src/preprocessing/impute_rules.py:6-10 | the names are unchanged and every column outside nb_floor, nb_appart and area_m2 is untouched |
| ImputeRules.FixZeroColumn | src/preprocessing/impute_rules.py:7-9 | each of the three columns, when present, has its zero and missing cells turned into NaN |
| ImputeRules.NoZeroAfterFix | src/preprocessing/impute_rules.py:7-9 | after the fix no such column holds a zero |
| ImputeRules.PresentOf | src/preprocessing/impute_rules.py:14 | the imputer's columns are exactly the listed names present in the frame |
| ImputeRules.SelectColumns | src/preprocessing/impute_rules.py:15 | the work frame holds the chosen columns, in order |
| ImputeRules.RintClip | src/preprocessing/impute_rules.py:20-21 | a rounded count is at least 1, and is the half-to-even rounding when that is at least 1 |
| ImputeRules.ImputedColumn | src/preprocessing/impute_rules.py:18-21 | an imputed column has one cell per imputed value |
| ImputeRules.ImputedWork | src/preprocessing/impute_rules.py:17-21 | a successful write-back of the imputer's output keeps the work frame's shape and names |
| ImputeRules.ImputeFloorsApartments | src/preprocessing/impute_rules.py:12-23 | on success the frame becomes the imputed frame; on failure the error is reported and the frame is untouched |
| ImputeRules.WriteBackInto | src/preprocessing/impute_rules.py:22 | the loop writes every imputed column back into the frame |
| ImputeRules.RoundedColumnIntegers | src/preprocessing/impute_rules.py:20-21 | every cell of a rounded count is a finite integer of at least 1 |
| ImputeRules.WriteBackNamed | src/preprocessing/impute_rules.py:22 | after the write-back each work column is in the frame with its imputed cells |
| ImputeRules.InputsDistinct | src/preprocessing/impute_rules.py:14 | the six imputer inputs are distinct |
| ImputeRules.ImputeParts | src/preprocessing/impute_rules.py:14-22 | a successful imputation writes back, for each present input in order, its imputed column |
| ImputeRules.ImputedCountsArePositiveIntegers | src/preprocessing/impute_rules.py:20-21 | after a successful imputation, nb_floor and nb_appart hold only integers of at least 1 |
| ImputeRules.ImputeKeepsOthers | src/preprocessing/impute_rules.py:14-22 | a column that is not an imputer input is unchanged by the imputation |
| ImputeRules.RatioCells | src/preprocessing/impute_rules.py:26-29 | each ratio cell is the numerator over the denominator, with a zero denominator replaced by NaN |
| ImputeRules.RatioDefinedness | src/preprocessing/impute_rules.py:26-29 | a zero or NaN denominator gives NaN; finite non-zero operands give their real quotient |
| ImputeRules.AddDerivedBuildingRatios | src/preprocessing/impute_rules.py:25-30 | the in-place writes leave the frame equal to the frame with the four ratios added |
| ImputeRules.RatioStepOther | src/preprocessing/impute_rules.py:26-29 | writing one ratio column leaves every other column as it was |
| ImputeRules.AddRatiosKeepsOthers | src/preprocessing/impute_rules.py:25-30 | columns other than the four ratio outputs are unchanged |
| ImputeRules.KwhPerApptWritten | src/preprocessing/impute_rules.py:27 | kwh_per_appt is written exactly when kwh and nb_appart are both present, and is then their ratio; otherwise it is present only if it was before |
| Engineering.AgeCells | src/data_loading/feature_engineering.py:11 | age is 2017 minus the construction year, row by row |
| Engineering.Quot | src/data_loading/feature_engineering.py:22-24 | the ratio column is the quotient row by row over the shared rows |
| Engineering.Log1p | src/data_loading/feature_engineering.py:36-45 | the log column is log(x + 1) row by row |
| Engineering.AddAgeMeaning | src/data_loading/feature_engineering.py:9-18 | `add_age` succeeds exactly when the construction year is present; it then adds age, drops the year and keeps every other column |
| Engineering.AddKwhPerMeaning | src/data_loading/feature_engineering.py:20-26 | `add_kwh_per_features` succeeds exactly when consumption, apartments and floors are present; it then adds the three ratios and keeps every other column |
| Engineering.Select | src/data_loading/feature_engineering.py:50 | the selected columns are read in order |
| Engineering.FirstAbsent | src/data_loading/feature_engineering.py:50 | the first missing column of the list is missing; there is none exactly when all are present |
| Engineering.PresentOf | src/data_loading/feature_engineering.py:49-50 | the present columns are exactly the listed names the frame has |
| Engineering.WriteAllKeeps | src/data_loading/feature_engineering.py:50 | writing the transformed columns adds each one and leaves every other column as it was |
| Engineering.TransformAndDropMeaning | src/data_loading/feature_engineering.py:48-54 | after a successful power transform and drop, the three raw columns are gone, the transformed columns are present and nothing new appears |
| Engineering.SkewPrefixMeaning | src/data_loading/feature_engineering.py:28-46 | the log steps succeed exactly when the three raw columns are present; "Unnamed: 0" is then gone, log_kwh and log_apartments are present, and log_floors exactly when it already was or the floors' skew exceeds 1 |
| Engineering.SkewnessFailsWithoutLogFloors | src/data_loading/feature_engineering.py:44-50 | as written, a frame without log_floors whose floors' skew is at most 1 makes `handle_skewness` raise KeyError("log_floors") |
| Engineering.LogFloorsFirstAbsent | src/data_loading/feature_engineering.py:50 | with log_kwh and log_apartments present, log_floors is the missing column reported |
| Engineering.AsWrittenSuccess | src/data_loading/feature_engineering.py:28-57 | when `handle_skewness` as written succeeds, the raw and "Unnamed: 0" columns are gone and the three log columns are present |
| Engineering.IntendedSucceeds | src/data_loading/feature_engineering.py:28-57 | with the transform restricted to the log columns that exist, the step succeeds whenever the raw columns are present, and drops them |
| Engineering.RawNotLog | src/data_loading/feature_engineering.py:50-54 | the raw columns dropped are not among the log columns |
| Engineering.IntendedIsTransform | src/data_loading/feature_engineering.py:28-57 | the intended step is the log steps followed by the transform and drop of the present log columns, which succeeds |
| Engineering.FeatureEngineering.constructor | src/data_loading/feature_engineering.py:6-7 | the object holds the frame it was given |
| Engineering.FeatureEngineering.AddAge | src/data_loading/feature_engineering.py:9-18 | the in-place method leaves the frame and error of the age step |
| Engineering.FeatureEngineering.AddKwhPerFeatures | src/data_loading/feature_engineering.py:20-26 | the in-place method leaves the frame and error of the ratio step, including the partial writes before a KeyError |
| Engineering.FeatureEngineering.FloorRatiosInPlace | src/data_loading/feature_engineering.py:23-24 | the two floor ratios are written in place, as the ratio step's tail |
| Engineering.FeatureEngineering.HandleSkewness | src/data_loading/feature_engineering.py:28-57 | the in-place method leaves the frame and error of `handle_skewness` as written |
| Engineering.FeatureEngineering.LogColumnsInPlace | src/data_loading/feature_engineering.py:30-46 | the in-place log steps leave the frame and error of the log steps |
| Engineering.FeatureEngineering.TransformInPlace | src/data_loading/feature_engineering.py:48-54 | the in-place transform and drop leave the frame and error of the transform step |
| TunerScore.Lookup | src/scripts/tune_hyperparameters.py:203-216 | a missing section gives no metric; a present key gives its value |
| TunerScore.Nz | src/scripts/tune_hyperparameters.py:207-208 | a finite metric is kept; an absent, null, NaN or infinite one is 0 |
| TunerScore.Terms | src/scripts/tune_hyperparameters.py:210-218 | the score reads ten terms |
| TunerScore.CompositeIsWeightedSum | src/scripts/tune_hyperparameters.py:202-232 | the score is the weighted sum of its ten neutralised terms: +0.50 silhouette, +0.40 Dunn, -0.10 DBI, +0.20, +0.15, +0.10, +0.10 for the four stability rewards, -0.10, -0.10, -0.05 for the three dispersion penalties |
| TunerScore.UndefinedScoresZero | src/scripts/tune_anomaly_pipeline_fast.py:144-184 | with no usable metric and no stability document the score is 0 |
| TunerScore.ScoreMonotoneInSilhouette | src/scripts/tune_full_grid.py:118-158 | a better silhouette never lowers the score, all else equal |
| TunerScore.OcsvmScore | src/scripts/tune_ocsvm.py:34-47 | with no usable metric the one-class SVM score is 0 |
| TunerScore.OcsvmIsWeightedSum | src/scripts/tune_ocsvm.py:34-47 | the one-class SVM score is 0.7 silhouette + 0.25 Dunn - 0.15 DBI over the neutralised metrics |
| AshaTuner.Snap | src/scripts/tune_hyperparameters.py:106-108 | a snapped value is always one of the options, even for u at or beyond 1 |
| AshaTuner.SnapCell | src/scripts/tune_hyperparameters.py:106-108 | the midpoint of the i-th of n equal cells of [0, 1) snaps to the i-th option |
| AshaTuner.SnapAt | src/scripts/tune_hyperparameters.py:107 | a point whose truncated scaled index is k snaps to option k |
| AshaTuner.Cleanup | src/scripts/tune_hyperparameters.py:126-130 | the cleanup sets use_fa to 0 when use_pca is 1 and hdb_min_cluster to the first option when use_hdbscan is 0, and changes no other key |
| AshaTuner.Snapped | src/scripts/tune_hyperparameters.py:121-124 | each key's value is its option snapped from the point's coordinate |
| AshaTuner.DedupProps | src/scripts/tune_hyperparameters.py:132-136 | de-duplication keeps first occurrences: the result is distinct, no longer than the input, and has the same members |
| AshaTuner.SobolCandidates | src/scripts/tune_hyperparameters.py:115-116 | at most `n` points are used |
| AshaTuner.SnapPoint | src/scripts/tune_hyperparameters.py:122-130 | the inner loop builds the cleaned candidate of one point |
| AshaTuner.DiscreteSampleSobol | src/scripts/tune_hyperparameters.py:98-137 | the loop with its `seen` set returns the de-duplicated candidates of the first `n` points |
| AshaTuner.SobolCandidatesAt | src/scripts/tune_hyperparameters.py:115-124 | the i-th candidate is the cleaned candidate of the i-th of the first `n` points |
| AshaTuner.KeepNew | src/scripts/tune_hyperparameters.py:132-136 | a canonical form already seen is skipped; a new one is appended and added to `seen` |
| AshaTuner.SampledCandidates | src/scripts/tune_hyperparameters.py:98-137 | the sample is distinct, has at most `n` candidates, holds exactly the snapped candidates, each cleaned and each within the space |
| AshaTuner.SnappedInSpace | src/scripts/tune_hyperparameters.py:121-130 | every snapped and cleaned candidate takes each key's value from that key's options |
| AshaTuner.Picked | src/scripts/tune_hyperparameters.py:372 | each key of a random draw takes the option its drawn index names |
| AshaTuner.Drawn | src/scripts/tune_hyperparameters.py:371-376 | each draw gives the cleaned candidate of its indices |
| AshaTuner.DrawPoint | src/scripts/tune_hyperparameters.py:372-376 | the loop body builds the cleaned candidate of one draw |
| AshaTuner.PadCandidates | src/scripts/tune_hyperparameters.py:365-381 | the padding loop returns the padded candidate list |
| AshaTuner.PadOne | src/scripts/tune_hyperparameters.py:372-381 | one draw is appended only when new, and then lowers `needed` by one; `existing` stays the set of candidates |
| AshaTuner.PadFromProps | src/scripts/tune_hyperparameters.py:365-381 | padding keeps the candidates as a prefix, stays distinct, adds at most `needed`, takes only draws, and falls short only when every remaining draw is already present |
| AshaTuner.PaddingMeaning | src/scripts/tune_hyperparameters.py:365-381 | the padded list is distinct, starts with the candidates, never exceeds N1 when short, is the candidates when not short, holds only candidates and draws, and reaches N1 whenever candidates and draws hold N1 distinct configurations |
| AshaTuner.DrawInSpace | src/scripts/tune_hyperparameters.py:372-376 | every drawn candidate is cleaned and within the space |
| AshaTuner.EpochsForStage | src/scripts/tune_hyperparameters.py:285-298 | a stage trains for at least 15 epochs |
| AshaTuner.EpochsScale | src/scripts/tune_hyperparameters.py:285-298 | full data trains 60 epochs, at least 70% of the rows 45, less 30; more rows never train fewer epochs |
| AshaTuner.Subsample | src/scripts/tune_hyperparameters.py:140-149 | at least 99.9% keeps every row; otherwise the rows are the sampler's |
| AshaTuner.Keep | src/scripts/tune_hyperparameters.py:396-412 | the promoted count is at least the floor and at least a third (0.33) of the stage, and when above the floor it is the ceiling of that fraction |
| AshaTuner.Promote | src/scripts/tune_hyperparameters.py:397-413 | promotion takes the parameters of the first `k` rows, or all of them when fewer |
| AshaTuner.RunAsha | src/scripts/tune_hyperparameters.py:361-453 | the method computes the three-stage run on the padded stage-1 candidates |
| AshaTuner.StageRowsSize | src/scripts/tune_hyperparameters.py:344-348 | a stage has one row per configuration, sorted by score from highest to lowest |
| AshaTuner.PromotionSizes | src/scripts/tune_hyperparameters.py:383-425 | stage 1 runs every candidate; stages 2 and 3 run max(6, ceil(0.33 n)) and max(3, ceil(0.33 n)) of the previous stage, capped at its size, and every promoted row scores at least every row left behind |
| AshaTuner.WinnerIsStage3Top | src/scripts/tune_hyperparameters.py:439-445 | with any candidate, stage 3 is non-empty and the winner is its top row, which no stage-3 row outscores; with none there is no winner |
| Grid.Extend | src/scripts/tune_full_grid.py:204 | one more option list multiplies the number of combinations by its length |
| Grid.SizeFrom | src/scripts/tune_full_grid.py:204 | the product of the lengths of a suffix of option lists is its index-by-index product |
| Grid.ProductSize | src/scripts/tune_full_grid.py:204 | `itertools.product` yields as many combinations as the product of the option counts |
| Grid.ExtendMembers | src/scripts/tune_full_grid.py:204 | a combination is in the extended product exactly when its head is an option and its tail is in the rest |
| Grid.ProductMembers | src/scripts/tune_full_grid.py:204 | a tuple is in the product exactly when it picks one option from each list |
| Grid.Zip | src/scripts/tune_full_grid.py:212 | `dict(zip(keys, combo))` has exactly the keys |
| Grid.ZipAt | src/scripts/tune_full_grid.py:212 | with distinct keys, each key maps to its own value of the combination |
| Grid.ZipInjective | src/scripts/tune_full_grid.py:212 | with distinct keys, different combinations give different dicts |
| Grid.ProductDistinct | src/scripts/tune_full_grid.py:204 | option lists without repeats give a product without repeats |
| Grid.ConfigsDistinct | src/scripts/tune_full_grid.py:204-212 | with distinct keys and options, no configuration appears twice |
| Grid.ConfigsComplete | src/scripts/tune_full_grid.py:204-212 | every combination of options appears as a configuration |
| Grid.ConfigsSound | src/scripts/tune_full_grid.py:204-212 | every configuration is the dict of one combination of options |
| Trials.RowOf | src/scripts/tune_full_grid.py:161-228 | a raised trial records score -1e9 and no metrics; a run records its metrics and their composite score; the row carries the parameters |
| Trials.BestStep | src/scripts/tune_full_grid.py:222-223 | recording a row keeps `best` the first successful row of maximum score, or none when every row failed |
| Trials.RowsOf | src/scripts/tune_full_grid.py:211-228 | one row per configuration, in order, each the row of its trial |
| Trials.Sweep | src/scripts/tune_full_grid.py:207-228 | the loop records the rows of every configuration, and `best` is the first successful row of maximum score |
| Trials.SortedByScoreMeaning | src/scripts/tune_full_grid.py:231-232 | the saved table is a permutation of the rows, sorted by descending score |
| Trials.FixFa | src/scripts/tune_full_grid.py:214-216 | the `use_fa` fix adds use_fa = 0 only when use_pca is 0 and use_fa is absent, and changes nothing else |
| Trials.FixedAll | src/scripts/tune_full_grid.py:211-216 | each configuration gets the fix |
| FullGridTuner.TuneGrid | src/scripts/tune_full_grid.py:203-234 | the results are the grid's rows sorted by descending score, and `best` is the first successful row of maximum score |
| FullGridTuner.TuneFullGrid | src/scripts/tune_full_grid.py:203-234 | the sweep over `param_grid` itself: its rows sorted by descending score, and the first successful row of maximum score as `best` |
| FullGridTuner.GridTrialsAreProduct | src/scripts/tune_full_grid.py:204-220 | one trial per combination of the grid: each row runs the fixed dict of a combination, and every combination is run |
| FullGridTuner.FullGridSize | src/scripts/tune_full_grid.py:28-40 | `param_grid` has 1920 combinations |
| FullGridTuner.FullGridOnce | src/scripts/tune_full_grid.py:204-212 | no configuration of `param_grid` is run twice |
| SlowTuner.Sample | src/scripts/tune_fused_slow.py:194 | the sample is the first 850 combinations, or all of them when fewer |
| SlowTuner.TuneSlow | src/scripts/tune_fused_slow.py:186-226 | the results are the sampled rows sorted by descending score, and `best` is the first successful row of maximum score |
| SlowTuner.TuneFusedSlow | src/scripts/tune_fused_slow.py:186-226 | the sweep over `PARAM_GRID` itself: the sampled rows sorted by descending score, and the first successful row of maximum score as `best` |
| SlowTuner.SampledWithoutRepetition | src/scripts/tune_fused_slow.py:190-202 | given a shuffle that permutes, at most 850 trials run, exactly 850 when the grid is that large, each a grid configuration and no two alike |
| SlowTuner.SlowGridSize | src/scripts/tune_fused_slow.py:45-57 | `PARAM_GRID` has 153600 combinations, so the 850-trial cap always applies |
| SlowTuner.SlowGridDistinct | src/scripts/tune_fused_slow.py:45-57 | the keys and each option list of `PARAM_GRID` have no repeats |
| FastTuner.LevelConfigs | src/scripts/tune_anomaly_pipeline_fast.py:294-298 | a level offers one configuration per combination of the other keys |
| FastTuner.LevelStep | src/scripts/tune_anomaly_pipeline_fast.py:322-371 | a trial records its row, and the level stops after it exactly when a successful trial leaves `no_improve` at the patience |
| FastTuner.LevelStops | src/scripts/tune_anomaly_pipeline_fast.py:309-320 | a spent trial budget stops the level unchanged; an exceeded time budget stops it and sets the trial count to the budget |
| FastTuner.TuneFast | src/scripts/tune_anomaly_pipeline_fast.py:289-383 | the loops compute the search, and the results are its rows sorted by descending score |
| FastTuner.RunLevel | src/scripts/tune_anomaly_pipeline_fast.py:306-371 | the inner loop computes one level's search from `no_improve = 0` |
| FastTuner.LevelRound | src/scripts/tune_anomaly_pipeline_fast.py:308-371 | one pass of the inner loop either ends the level or continues it with the updated state |
| FastTuner.RunTrial | src/scripts/tune_anomaly_pipeline_fast.py:322-371 | one trial records its row, updates the best and `no_improve`, and reports whether the patience ran out |
| FastTuner.LevelBudget | src/scripts/tune_anomaly_pipeline_fast.py:309-322 | a level never takes the search beyond `max_trials` recorded trials |
| FastTuner.TrialBudget | src/scripts/tune_anomaly_pipeline_fast.py:289-375 | the whole search records at most `max_trials` trials, and none when it is not positive |
| FastTuner.LevelBest | src/scripts/tune_anomaly_pipeline_fast.py:341-347 | a level keeps `best` the first successful row of maximum score |
| FastTuner.TuneBest | src/scripts/tune_anomaly_pipeline_fast.py:277-375 | after the search, `best` is the first successful row of maximum score among all recorded rows, or none when every trial raised |
| FastTuner.LevelPatience | src/scripts/tune_anomaly_pipeline_fast.py:341-358 | within a level, every trial runs while fewer than `patience` successful trials have passed without improvement |
| FastTuner.PatienceBound | src/scripts/tune_anomaly_pipeline_fast.py:306-358 | a level appends to the results, and no trial of it runs after `patience` non-improving successful trials |
| FastTuner.LevelsVisitedInOrder | src/scripts/tune_anomaly_pipeline_fast.py:289-300 | the recorded rows come from the contamination levels in order, never going back |
| FastTuner.LevelConfigAt | src/scripts/tune_anomaly_pipeline_fast.py:295-297 | each level configuration is a combination's dict with `contamination` set to the level's value |
| FastTuner.LevelOffersAll | src/scripts/tune_anomaly_pipeline_fast.py:294-300 | given a shuffle that permutes, every combination is offered at every level |
| FastTuner.RowContamination | src/scripts/tune_anomaly_pipeline_fast.py:295-330 | a row recorded at a level has that level's contamination and runs the fixed dict of some combination |
| OcsvmTuner.SampleConfig | src/scripts/tune_ocsvm.py:50-72 | every configuration drawn lies in the option sets: one of the four contaminations, nu in [0.01, 0.10), and a listed kernel, gamma, degree, coef0, PCA switch, PCA variance and scaler |
| OcsvmTuner.SampleCovers | src/scripts/tune_ocsvm.py:50-72 | conversely, every configuration in the option sets is drawn by some draw of the generator |
| OcsvmTuner.CoverDraw | src/scripts/tune_ocsvm.py:50-72 | the draw that picks each option of a given configuration by its position yields that configuration |
| OcsvmTuner.NuDraw | src/scripts/tune_ocsvm.py:56 | every nu in [0.01, 0.10) is `uniform(0.01, 0.10)` of some `random()` value in [0, 1) |
| OcsvmTuner.Defined | src/scripts/tune_ocsvm.py:113-118 | the non-NaN values are exactly the defined samples, and there are no more of them than samples |
| OcsvmTuner.NanMean | src/scripts/tune_ocsvm.py:113 | the NaN-ignoring mean is NaN exactly when every sample is NaN |
| OcsvmTuner.NanIgnored | src/scripts/tune_ocsvm.py:113-118 | appending a NaN run changes neither the mean nor the spread |
| OcsvmTuner.NanMeanBounds | src/scripts/tune_ocsvm.py:113 | the mean lies between any bounds of the defined samples |
| OcsvmTuner.NanVarNonNegative | src/scripts/tune_ocsvm.py:114 | the spread, when defined, is never negative |
| OcsvmTuner.Runs | src/scripts/tune_ocsvm.py:91-107 | one baseline run per seed, in seed order, each with that seed |
| OcsvmTuner.RunSeeds | src/scripts/tune_ocsvm.py:90-110 | the inner loop collects the silhouette, Dunn and DBI of each seed's run, in seed order |
| OcsvmTuner.TuneRows | src/scripts/tune_ocsvm.py:87-128 | one row per iteration |
| OcsvmTuner.Tune | src/scripts/tune_ocsvm.py:75-158 | the loop builds the rows of the specification in order, the table is them sorted by descending score, and the best is its first row, `None` when there was no iteration |
| OcsvmTuner.TuneRowsMeaning | src/scripts/tune_ocsvm.py:87-128 | row i is numbered i + 1, holds the configuration sampled at iteration i (which lies in the option sets), its silhouette mean is the NaN-ignoring mean over the seeds' runs, and its score is the composite score of the three means |
| OcsvmTuner.BestIsTop | src/scripts/tune_ocsvm.py:139-157 | the table is empty exactly when there was no iteration, and otherwise its first row is one of the rows and has the highest score |
| Ocsvm.InsertUnique | src/models/ocsvm_baseline.py:45 | inserting a label into a strictly increasing list keeps it strictly increasing and adds exactly that label |
| Ocsvm.Unique | src/models/ocsvm_baseline.py:45 | `np.unique`: strictly increasing, and holding exactly the labels that occur |
| Ocsvm.Members | src/models/ocsvm_baseline.py:51 | `np.where(labels == l)`: an index is listed exactly when its label is `l`, and every listed index is in range |
| Ocsvm.MembersNonEmpty | src/models/ocsvm_baseline.py:51 | a label that occurs has at least one member |
| Ocsvm.GroupsOf | src/models/ocsvm_baseline.py:50-51 | one member list per distinct label, in the order of the distinct labels |
| Ocsvm.GroupsNonEmpty | src/models/ocsvm_baseline.py:50-51 | no group is empty |
| Ocsvm.RowMax | src/models/ocsvm_baseline.py:55 | the largest distance from one point to a non-empty list of points bounds every such distance, and is non-negative for a non-negative distance |
| Ocsvm.RowMin | src/models/ocsvm_baseline.py:60 | the smallest such distance is bounded by every one of them, and is non-negative for a non-negative distance |
| Ocsvm.BlockMax | src/models/ocsvm_baseline.py:55 | `np.max(D[np.ix_(a, b)])` bounds every entry of the block |
| Ocsvm.BlockMin | src/models/ocsvm_baseline.py:60 | `np.min(D[np.ix_(a, b)])` is bounded by every entry of the block |
| Ocsvm.DunnIndex | src/models/ocsvm_baseline.py:39-67 | the loop computes the Dunn value of the specification: NaN for fewer than two labels, and otherwise the smallest separation over the largest diameter, NaN when either list is empty or the largest diameter is 0 |
| Ocsvm.GroupEntries | src/models/ocsvm_baseline.py:50-60 | one pass of the outer loop appends group i's diameter (0 below two members) and its separations from every later non-empty group |
| Ocsvm.GroupSeparations | src/models/ocsvm_baseline.py:56-60 | the inner loop yields the separations of group i from the later groups, skipping empty ones |
| Ocsvm.SeparationsNonNegative | src/models/ocsvm_baseline.py:56-60 | for a non-negative distance every separation is non-negative |
| Ocsvm.DunnNonNegative | src/models/ocsvm_baseline.py:39-67 | for a non-negative distance a defined Dunn index is non-negative |
| Ocsvm.DunnDefinedIffPositiveDiameter | src/models/ocsvm_baseline.py:46-67 | with two or more labels the Dunn index is defined exactly when the largest diameter is non-zero |
| Ocsvm.SafeSilhouette | src/models/ocsvm_baseline.py:70-78 | the silhouette is reported exactly when there are at least two labels, every label occurs twice and the library returns a value, and it is then that value; otherwise NaN |
| Ocsvm.SafeDbi | src/models/ocsvm_baseline.py:81-88 | the Davies-Bouldin score is reported exactly when there are at least two labels and the library returns a value; otherwise NaN |
| Ocsvm.OneLabelNoMetrics | src/models/ocsvm_baseline.py:44-85 | a partition with a single label gives NaN for all three metrics |
| Ocsvm.VirtualIndexBounds | src/models/ocsvm_baseline.py:104 | for q in [0, 100] the interpolation index lies in [0, n - 1] and its floor is a valid position |
| Ocsvm.Percentile | src/models/ocsvm_baseline.py:104 | `np.percentile` fails exactly for q outside [0, 100] or no scores, and otherwise interpolates linearly in the sorted scores |
| Ocsvm.PercentileLabel | src/models/ocsvm_baseline.py:99-106 | the threshold is the (100 * (1 - contamination))-th percentile, there is one label per score, and a score is flagged 1 exactly when it is at or above the threshold, otherwise 0 |
| Ocsvm.InterpolateAtMostLast | src/models/ocsvm_baseline.py:104 | an interpolated percentile never exceeds the largest score |
| Ocsvm.PercentileAtMostMax | src/models/ocsvm_baseline.py:104 | the percentile is at most the maximum score |
| Ocsvm.MaximumFlagged | src/models/ocsvm_baseline.py:99-106 | for any contamination in [0, 1] the highest score is always flagged |
| Ocsvm.SomeScoreFlagged | src/models/ocsvm_baseline.py:99-106 | a non-empty score list always has a flagged score |
| Ocsvm.FlaggingMonotone | src/models/ocsvm_baseline.py:105 | flagging respects score order: a score at least a flagged score is flagged |
| Ocsvm.NumericNonId | src/models/ocsvm_baseline.py:116-120 | the selected names are exactly the numeric columns that are not fid or FID |
| Ocsvm.SelectNumericFeatures | src/models/ocsvm_baseline.py:111-124 | selection succeeds exactly when two or more such columns remain, returns them (never fid or FID), and otherwise reports the ones found |
| Ocsvm.ClipNu | src/models/ocsvm_baseline.py:176 | the clipped nu lies in [0.001, 0.49] and equals nu when nu is already there |
| Ocsvm.MetaMetric | src/models/ocsvm_baseline.py:229-231 | a metric is written as null exactly when it is NaN, and as itself otherwise |
| Inference.LoadActiveArtifacts | backend/ml/inference.py:29-89 | no card is "no active model"; a non-dictionary `files` is an error; loading succeeds exactly when the scaler path is set and exists and the card defines feature columns; the PCA is loaded exactly when its path is set and exists, the residual artifact exactly when its path is set, exists and unpickles |
| Inference.RegistryCardLoads | backend/ml/inference.py:40-89 | a card the registry wrote, with an existing scaler and non-empty feature columns, always loads, with those feature columns |
| Inference.SelectFeatures | backend/ml/inference.py:178-196 | aligning fails exactly when some feature column is missing, reporting the missing ones; otherwise it yields the frame's columns in the model's feature order |
| Inference.ExtraColumnIgnored | backend/ml/inference.py:179-196 | a column the model does not use has no effect on the alignment |
| Inference.AlignForInference | backend/ml/inference.py:148-203 | artifact errors come first, then preprocessing errors, then the alignment of the engineered frame to the model's feature columns |
| Inference.Ranks | backend/ml/inference.py:137-143 | one rank per score |
| Inference.RankZeroToOne | backend/ml/inference.py:137-143 | the array written through `ranks[order] = linspace(...)` is the rank list of the specification |
| Inference.LinspaceInUnitInterval | backend/ml/inference.py:142 | every point of `linspace(0, 1, n)` is in [0, 1] |
| Inference.LinspaceStrict | backend/ml/inference.py:142 | `linspace(0, 1, n)` is strictly increasing |
| Inference.LinspaceLast | backend/ml/inference.py:142 | its last point is 1 when n > 1 |
| Inference.RanksInUnitInterval | backend/ml/inference.py:138 | every rank lies in [0, 1] |
| Inference.RanksFollowSortedOrder | backend/ml/inference.py:140-142 | the score at position j of the ascending order gets the j-th linspace point |
| Inference.RanksDistinct | backend/ml/inference.py:140-142 | no two rows share a rank |
| Inference.PositionsFollowScores | backend/ml/inference.py:140 | a row placed before another in the ascending order has a score no larger |
| Inference.RanksPreserveOrder | backend/ml/inference.py:138-142 | a strictly lower score gets a strictly lower rank |
| Inference.RankOfStrictMinimum | backend/ml/inference.py:138 | a strict minimum gets rank 0 |
| Inference.RankOfStrictMaximum | backend/ml/inference.py:138 | a strict maximum gets rank 1 when there are at least two scores |
| Inference.Fused | backend/ml/inference.py:242 | one fused score per row |
| Inference.FusedInUnitInterval | backend/ml/inference.py:240-242 | every fused score lies in [0, 1] |
| Inference.FusedMonotone | backend/ml/inference.py:240-242 | a row strictly more anomalous under both scorers gets a strictly higher fused score |
| Inference.TopKBounds | backend/ml/inference.py:254-255 | for a non-empty frame and a valid percentage, between 1 and n rows are flagged |
| Inference.ScoreNewDataset | backend/ml/inference.py:208-260 | a percentage outside (0, 100] is an error before anything else, then preprocessing errors; otherwise the scored rows are a permutation of the input rows in non-increasing fused score, row j has rank j + 1, the source row's two scores and fused score, and is flagged exactly when j < k, and the top frame is the first k rows |
| Inference.RankRows | backend/ml/inference.py:240-259 | the ranking step alone, with the same promise on the rows and the top frame |
| Registry.Deactivated | backend/ml/registry.py:79-80 | marking every entry inactive keeps the history's length and every other field of every entry |
| Registry.Activated | backend/ml/registry.py:167-173 | after re-pointing, an entry is active exactly when it has the requested version, and no entry changes version |
| Registry.LastWithVersion | backend/ml/registry.py:166-176 | the target found is an entry of the history with the requested version, and none is found only when no entry has it |
| Registry.ActiveCountAppend | backend/ml/registry.py:135 | appending a card adds one active entry exactly when the card is active |
| Registry.SaveLeavesOneActive | backend/ml/registry.py:79-135 | after a save exactly one history entry is active |
| Registry.SaveKeepsVersionsSequential | backend/ml/registry.py:82-135 | saving with version `len(hist) + 1` keeps the versions 1, 2, ..., n in order |
| Registry.SequentialIsUnique | backend/ml/registry.py:82 | sequential versions are distinct |
| Registry.ActivationLeavesOneActive | backend/ml/registry.py:166-173 | when versions are distinct and the requested one exists, re-pointing leaves exactly one entry active |
| Registry.FeatureCount | backend/ml/registry.py:68-69 | `n_features` is recorded exactly when the meta lists a non-empty `feature_columns`, and is its length |
| Registry.Registry.constructor | backend/ml/registry.py:9-11 | a fresh registry has neither a history nor a current card |
| Registry.Registry.SaveNewModelVersion | backend/ml/registry.py:18-139 | a missing meta file and then a missing stability file are errors that change nothing; otherwise the new card has version n + 1, is active since `now`, records the feature count, the file block (with `pca` only when that file exists) and the source path or its default, every earlier entry is made inactive, the card is appended to the history and becomes the current card |
| Registry.Registry.SetActiveModelVersion | backend/ml/registry.py:156-184 | no history is "no models registered" and an unknown version is "not found", both changing nothing; otherwise the history is re-pointed to the version and the current card is the (last) entry with it |
| Registry.Registry.DeactivateAll | backend/ml/registry.py:79-80 | the loop yields the history with every entry inactive |
| Registry.Registry.ActivateVersion | backend/ml/registry.py:166-173 | the loop yields the re-pointed history and its target, which is absent exactly when no entry had the version |
| Registry.Registry.ActivateAt | backend/ml/registry.py:167-173 | one pass of that loop re-points entry i and keeps the target the last matching entry so far |
| DataOps.LastIndex | backend/routers/data_ops.py:41 | the last position of a character: it holds that character and none follows, or -1 when the character does not occur |
| DataOps.SplitExt | backend/routers/data_ops.py:41 | `os.path.splitext(...)[1]` is empty or a suffix of the path that starts with its only dot and holds no slash |
| DataOps.SplitExtValue | backend/routers/data_ops.py:41 | the extension is non-empty exactly when the file name's final component has a character other than a dot before its last dot, and it is then that component's tail from the last dot |
| DataOps.UploadName | backend/routers/data_ops.py:40 | the upload's name is never empty: the given name, or "upload" when there is none |
| DataOps.UploadGuard | backend/routers/data_ops.py:39-47 | an upload is accepted, with its lower-cased extension, exactly when that extension is .csv, .xlsx or .xls and the file has at most 20 MiB; any rejection is a 400 |
| DataOps.AcceptedNameEnds | backend/routers/data_ops.py:41-43 | an accepted name ends in one of the three extensions in some letter case |
| DataOps.DropUnsafeMeaning | backend/routers/data_ops.py:51 | dropping a leading run of unsafe characters keeps a suffix that is empty or starts with a safe character, and only unsafe characters were dropped |
| DataOps.SanitizeMeaning | backend/routers/data_ops.py:51 | the sanitised name holds only `[A-Za-z0-9._-]` and `_`, and is empty only for an empty name |
| DataOps.SanitizeSafe | backend/routers/data_ops.py:51 | a name made of safe characters only is left unchanged |
| DataOps.SanitizeIdempotent | backend/routers/data_ops.py:51 | sanitising twice is sanitising once |
| DataOps.RunBecomesOne | backend/routers/data_ops.py:51 | a whole run of unsafe characters becomes a single `_` |
| DataOps.SanitizeAppend | backend/routers/data_ops.py:51 | sanitising distributes over a concatenation not joining two unsafe runs |
| DataOps.SnapshotPath | backend/routers/data_ops.py:78 | the snapshot path is "data/datasets/" followed by only safe characters, and has a file name exactly when the upload's name is non-empty |
| DataOps.Archived | backend/routers/data_ops.py:75 | every earlier version becomes "archived" and nothing else about it changes |
| DataOps.AfterUploadOneActive | backend/routers/data_ops.py:75-88 | after an upload exactly one version is active, the new one, and the older versions keep their names and row counts |
| DataOps.IndexOfModel | backend/routers/data_ops.py:140 | the first model with the id, or -1 when there is none |
| DataOps.ActivatedMeaning | backend/routers/data_ops.py:140-145 | activation fails with 404 exactly when no model has the id; otherwise exactly one model, one with that id, is active, and no model changes id or file name |
| DataOps.Registry.constructor | backend/routers/data_ops.py:75-89 | an empty store of dataset and model versions |
| DataOps.Registry.UploadDataset | backend/routers/data_ops.py:31-98 | a rejected upload or a failed ingestion is a 400 that changes no version; otherwise the rows ingested and the snapshot path are returned, earlier versions are archived and the new version is added as active under the upload's original name; models are untouched |
| DataOps.Registry.AddActive | backend/routers/data_ops.py:75-89 | archives the earlier versions and appends the new one as active |
| DataOps.Registry.UploadModel | backend/routers/data_ops.py:115-131 | a new inactive model version is appended; datasets are untouched |
| DataOps.Registry.ActivateModel | backend/routers/data_ops.py:134-146 | an unknown model is 404 and changes nothing; otherwise the store becomes the single-active activation of that id |
| DataOps.FindBuilding | backend/routers/data_ops.py:276-288 | a row maps only to an existing building, the one whose id is its FID |
| DataOps.RunSnoc | backend/routers/data_ops.py:291-354 | running one more row is one more step after the earlier rows |
| DataOps.InferAndCreateCases | backend/routers/data_ops.py:221-364 | a `top_percent` outside (0, 50] and a failed validation or scoring are 400; otherwise the loop leaves the store after one step per top row, in order |
| DataOps.StepMeaning | backend/routers/data_ops.py:291-354 | a step adds one "New" case with the next id and one anomaly record pointing at it with the same building; it creates a placeholder building, with the row's coordinates, exactly when the row maps to no building and has both coordinates; it changes an existing building only to backfill its coordinates when it lacks one and the row has both; building ids stay fresh |
| DataOps.RunCounts | backend/routers/data_ops.py:291-363 | one case and one anomaly per top row, earlier cases kept, every new case "New" |
| Reports.DistrictOf | backend/routers/reports.py:108-110 | a label's district is never empty: its case's building's district when set, else "Unknown" |
| Reports.MonthKeys | backend/routers/reports.py:98-104 | `month_stats` has a key for exactly the months some label falls in, a label without a creation time falling in the report's month |
| Reports.MonthCounts | backend/routers/reports.py:98-106 | every month's total is the number of labels in it and its fraud count the number of fraud labels in it, so 1 <= total and fraud <= total; months not in the map have no labels |
| Reports.CountBiasKeys | backend/routers/reports.py:108-114 | one label adds its district to `bias_stats` exactly when it is a fraud or non_fraud label |
| Reports.BiasKeys | backend/routers/reports.py:99-114 | `bias_stats` has a key for exactly the districts holding some fraud or non_fraud label |
| Reports.BiasCounts | backend/routers/reports.py:99-114 | every district's fraud and non_fraud counts are the numbers of such labels in it, at least one in all; other districts have none |
| Reports.BiasIgnoresOther | backend/routers/reports.py:111-114 | a label that is neither fraud nor non_fraud leaves `bias_stats` unchanged |
| Reports.TallyLabels | backend/routers/reports.py:98-114 | the loop leaves both tallies as the specification's folds over the labels |
| Reports.TallyLabel | backend/routers/reports.py:101-114 | one pass counts one label into both tallies |
| Reports.StatsStep | backend/routers/reports.py:100-114 | each tally over one more label is the previous tally with that label counted |
| Reports.FraudRate | backend/routers/reports.py:119-121 | the monthly fraud rate is fraud / total, 0 for no labels, and in [0, 1] when fraud <= total |
| Reports.BiasScore | backend/routers/reports.py:131-134 | the bias score lies in [-1, 1], is positive exactly when fraud labels outnumber non_fraud ones and negative exactly when they are fewer, and is 1 (-1) when there are only fraud (non_fraud) labels |
| Reports.BelowIrreflexive | backend/routers/reports.py:125-138 | the string order used to sort month keys and districts is irreflexive |
| Reports.BelowTransitive | backend/routers/reports.py:125-138 | the string order used to sort month keys and districts is transitive |
| Reports.BelowTotal | backend/routers/reports.py:125-138 | the string order used to sort month keys and districts is total on distinct strings |
| Reports.SortedKeys | backend/routers/reports.py:125-138 | `sorted(d.items())` visits exactly the keys, in strictly ascending order |
| Reports.Trends | backend/routers/reports.py:98-139 | the fraud and bias trends have one point per month (district) of the tallies, in ascending key order, each carrying that key's counts; every fraud rate is in [0, 1] with fraud at most the total, every bias score in [-1, 1] |
| Reports.FraudTrendOf | backend/routers/reports.py:116-126 | the fraud trend lists every month of its tally once, ascending, with its rate in [0, 1] |
| Reports.BiasTrendOf | backend/routers/reports.py:128-139 | the bias trend lists every district of its tally once, ascending, with its score in [-1, 1] |
| Reports.MeanAge | backend/routers/reports.py:34-36 | the mean case age is 0 with no dated case, and otherwise the sum of the ages over their count |
| Reports.RateOrZero | backend/routers/reports.py:53-65 | a rate is 0 when there is nothing to divide by, part / whole otherwise, and in [0, 1] when part <= whole |
| Reports.KpisOf | backend/routers/reports.py:25-53 | open plus closed cases is the total; open is non-negative when the closed count is at most the total; the fraud confirmation rate is 0 without feedback and in [0, 1] otherwise; the feedback counts are reported as queried; the average case age is the mean age rounded to one decimal and, with feedback, the rate is fraud over total rounded to four decimals |
| Reports.Scaled | backend/routers/reports.py:146-147 | a value in [0, 1] scaled to 1/scale units lies in [0, scale], and 0 stays 0 |
| Reports.RoundUnit | backend/routers/reports.py:146-147 | `round(x, digits)` keeps a value of [0, 1] in [0, 1] and keeps 0 at 0 |
| Reports.RoundBetween | backend/routers/reports.py:146-147 | rounding a value between 0 and a whole number p to an integer stays in [0, p] |
| Reports.DistrictAlerts | backend/routers/reports.py:55-68 | one alert per district row, its district the row's or "Unknown" and never empty, its count the row's, and its share of all cases in [0, 1] (0 with no cases) |
| Validation.RunLength | backend/utils/validation.py:41 | the leading run of `[a-z0-9]` characters: all of them match, and the next character, if any, does not |
| Validation.TokensAlnum | backend/utils/validation.py:41 | every token found by `re.findall(r"[a-z0-9]+", s)` is made of a-z and 0-9 only |
| Validation.Singular | backend/utils/validation.py:42 | removing a trailing "s" leaves a prefix of the token |
| Validation.NormNameAlnum | backend/utils/validation.py:33-43 | a normalised name consists of a-z and 0-9 only |
| Validation.TokensOfSkeleton | backend/utils/validation.py:41 | the tokens depend only on where the letters and digits are, not on which separators stand between them |
| Validation.TokensStripLeft | backend/utils/validation.py:39-41 | stripping leading whitespace does not change the tokens |
| Validation.TokensStripRight | backend/utils/validation.py:39-41 | stripping trailing whitespace does not change the tokens |
| Validation.NormNameByTokens | backend/utils/validation.py:33-43 | the normalised name is the join of the singularised tokens of the lower-cased name |
| Validation.NormNameIgnoresCase | backend/utils/validation.py:39 | names that differ only in letter case normalise alike |
| Validation.NormNameIgnoresSeparators | backend/utils/validation.py:39-43 | names that differ only in separators normalise alike |
| Validation.SingularOfPlural | backend/utils/validation.py:42 | a token and its plural in "s" normalise alike |
| Validation.LastWithKey | backend/utils/validation.py:77 | the column a dictionary comprehension keeps for a key is a column with that key |
| Validation.NormMap | backend/utils/validation.py:77 | `expected_map` has a key for every expected column, and each key maps to an expected column with that key |
| Validation.Aliases | backend/utils/validation.py:46-52 | every alias of the construction year is a key of `ALIASES`, and every key maps to "Building's construction year" |
| Validation.RenameFoldEntries | backend/utils/validation.py:78-84 | the `rename` dict renames exactly the headers with a target, each to its target |
| Validation.BlankToNan | backend/utils/validation.py:93 | a whitespace-only text cell becomes NaN and every other cell is kept |
| Validation.BlankColumns | backend/utils/validation.py:93 | the blank replacement applies to every cell of every column and keeps the names |
| Validation.NumericCell | backend/utils/validation.py:107-110 | coercion always yields a number: numbers are kept and text that does not parse (after removing commas and surrounding whitespace) becomes NaN |
| Validation.ValidateWith | backend/utils/validation.py:67-112 | the steps of `validate_csv` (rename, missing-column check, blanking, coercion) compute the specification's result |
| Validation.RenameHeaders | backend/utils/validation.py:78-84 | the header loop builds the `rename` dict of the specification |
| Validation.CoerceRequired | backend/utils/validation.py:104-110 | the coercion loop stops at the first error and otherwise coerces every present required column |
| Validation.ValidateCsv | backend/utils/validation.py:67-112 | `validate_csv` with the expected columns and both header dictionaries |
| Validation.CoerceFailureSticks | backend/utils/validation.py:104-110 | once the loop raises, that error is its outcome |
| Validation.ExactMatchPreferred | backend/utils/validation.py:79-86 | an exact expected match renames a header before an alias does, a header with neither keeps its name, and the cells are never touched |
| Validation.YearAliasRenamed | backend/utils/validation.py:46-84 | a header matching only an alias becomes "Building's construction year" |
| Validation.MissingColumnsReported | backend/utils/validation.py:88-90 | validation fails with the missing required columns exactly when some required column is absent after renaming |
| Validation.CoerceNeverMissing | backend/utils/validation.py:104-110 | the coercion loop can fail only on a duplicated column |
| Validation.CoerceUpToNames | backend/utils/validation.py:104-110 | coercion keeps the column names |
| Validation.ExpectedDistinct | backend/utils/validation.py:9-16 | the expected column names are distinct |
| Validation.CoerceUpToOther | backend/utils/validation.py:104-110 | after the loop has reached column j, that column holds its coerced cells, and before that its original ones |
| Validation.ValidatedColumns | backend/utils/validation.py:67-112 | in a validated frame every required column is present and each of its cells is the coerced, blank-replaced cell of the renamed input |
| Validation.BlankCellsBecomeMissing | backend/utils/validation.py:93 | a validated frame has no whitespace-only text cell |
| Validation.CountMissing | backend/utils/validation.py:122-141 | the count of missing rows is at most the rows looked at, 0 exactly when none is missing and all of them exactly when every one is |
| Validation.MissingFraction | backend/utils/validation.py:122-144 | the fraction is in [0, 1]: 1 for an absent column, 0 for an empty one, and otherwise the missing rows under the column's rule over the row count |
| Validation.CalculateMissingness | backend/utils/validation.py:115-144 | one entry per expected column, each its missing fraction in [0, 1] |
| Validation.FractionExtremes | backend/utils/validation.py:142 | for a non-empty column the fraction is 0 exactly when no row is missing and 1 exactly when every row is |
| InspectorRouter.LinkedInspector | backend/routers/inspector.py:109-113 | the linked profile is found exactly when the user has one; otherwise 404 |
| InspectorRouter.ResolveMeaning | backend/routers/inspector.py:116-129 | a non-inspector gets the requested id, or 400 without one; an inspector without a profile gets 404; an inspector gets their own id when asking for none or for it, and 403 for another's |
| InspectorRouter.CheckOwner | backend/routers/inspector.py:240-284 | the ownership check passes exactly for a non-inspector or for the inspector the appointment belongs to |
| InspectorRouter.Appointment.constructor | backend/routers/inspector.py:226-245 | an appointment with the given inspector, times and status |
| InspectorRouter.RespondMeaning | backend/routers/inspector.py:233-245 | a missing appointment is 404, an action other than accept or reject is 400, and the response succeeds exactly for an allowed caller with a valid action, giving "accepted" for accept and "rejected" for reject |
| InspectorRouter.RespondAppointment | backend/routers/inspector.py:226-268 | the handler returns that decision, sets the status to the new one only on success, and changes nothing else |
| InspectorRouter.ConfirmMeaning | backend/routers/inspector.py:278-297 | a missing appointment is 404; the change succeeds exactly for an allowed caller and, for a reschedule, with both times given; a reschedule sets the new times and "pending", confirm "accepted", visited "closed", and only a reschedule moves the times |
| InspectorRouter.ConfirmVisit | backend/routers/inspector.py:271-314 | the handler applies that change, never changes the inspector, and on an error changes nothing |
| InspectorRouter.RoutePointsMeaning | backend/routers/inspector.py:328-352 | a route point is exactly a pending or accepted visit of the inspector that day whose building has both coordinates |
| InspectorRouter.NearCluster | backend/routers/inspector.py:359-363 | the first cluster, from j on, whose first point is within 2 km; none when every such cluster is farther |
| InspectorRouter.ClustersMeaning | backend/routers/inspector.py:355-365 | the clusters hold every point exactly once, each in input order, every later member within 2 km of its cluster's first point, and each first point farther than 2 km from every earlier cluster's first point |
| InspectorRouter.ClusterIdxStep | backend/routers/inspector.py:357-365 | clustering one more point places it after the earlier ones |
| InspectorRouter.PlaceKeepsClustered | backend/routers/inspector.py:358-365 | placing a point, by joining or opening a cluster, keeps the cluster invariants |
| InspectorRouter.ClusterPoints | backend/routers/inspector.py:356-365 | the nested loop builds the clusters of the specification |
| InspectorRouter.PlacePoint | backend/routers/inspector.py:358-365 | one pass of the outer loop appends the point to the first near cluster or opens a new one |
| InspectorRouter.Without | backend/routers/inspector.py:372 | the remaining points are exactly those with another id |
| InspectorRouter.RemoveFirst | backend/routers/inspector.py:376 | `list.remove` takes one occurrence of the point away and nothing else |
| InspectorRouter.GreedyRoute | backend/routers/inspector.py:368-379 | the route loop computes the route of the specification |
| InspectorRouter.WalkOn | backend/routers/inspector.py:373-377 | the `while remaining` loop computes the greedy walk from the current point |
| InspectorRouter.Advance | backend/routers/inspector.py:374-377 | one pass moves to the nearest remaining point and removes it |
| InspectorRouter.WalkVisitsAll | backend/routers/inspector.py:373-377 | the walk visits every remaining point exactly once |
| InspectorRouter.WalkGreedy | backend/routers/inspector.py:374 | each step of the walk goes to a nearest point among those left |
| InspectorRouter.FirstStepNearest | backend/routers/inspector.py:374 | the first step is to a point no farther than any later one |
| InspectorRouter.WithoutUnique | backend/routers/inspector.py:372 | with distinct ids, the points other than the first, plus the first, are all the points |
| InspectorRouter.RouteMeaning | backend/routers/inspector.py:368-379 | the route is empty exactly when there are no points, starts at the earliest start (a missing start counting as earliest), always moves on to a nearest remaining point, and with distinct appointment ids visits every point exactly once |
| InspectorRouter.RouteVisitsAll | backend/routers/inspector.py:370-377 | with distinct ids the route is a permutation of the points |
| ManagerScheduling.SuggestionsFor | backend/routers/manager_scheduling.py:147-160 | one suggestion per active inspector, in order |
| ManagerScheduling.Head | backend/routers/manager_scheduling.py:164 | Python's `s[:k]` is a prefix of `k` elements (at most all), or for negative `k` all but the last `-k` |
| ManagerScheduling.Suggest | backend/routers/manager_scheduling.py:123-164 | the scoring loop, the stable ascending sort and the `top_k` cut compute the specification's suggestions |
| ManagerScheduling.SuggestTargetMeaning | backend/routers/manager_scheduling.py:126-135 | a request with both coordinates is used as is; otherwise a non-zero case id is looked up (404 when the case or building is missing) and a place still lacking a coordinate is 400 |
| ManagerScheduling.SuggestMeaning | backend/routers/manager_scheduling.py:147-164 | the suggestions are in ascending score, each is one of the inspectors' suggestions, there are `top_k` of them (or all), none left out scores lower than one kept, and an inspector is ranked by distance exactly under "proximity" with both home coordinates |
| ManagerScheduling.TopPrefix | backend/routers/manager_scheduling.py:163-164 | a prefix of the stable sort is sorted, drawn from the list, and scores no higher than anything left out |
| ManagerScheduling.AssignScores | backend/routers/manager_scheduling.py:364-373 | one score per inspector: distance plus half the load under proximity with a home, the load otherwise |
| ManagerScheduling.ScoreInspectors | backend/routers/manager_scheduling.py:364-373 | the scoring loop computes those scores |
| ManagerScheduling.PickCase | backend/routers/manager_scheduling.py:374-394 | one case's pick is the first inspector with the lowest score, with its slot, notes and reason |
| ManagerScheduling.AutoAssign | backend/routers/manager_scheduling.py:329-397 | the loop with its load updates computes the specification's assignments |
| ManagerScheduling.AssignOn | backend/routers/manager_scheduling.py:358-394 | one pass extends the results and the loads so that what remains to compute is unchanged |
| ManagerScheduling.AssignCase | backend/routers/manager_scheduling.py:359-394 | a case without a building is skipped; otherwise its assignment is prepended and its inspector's load bumped |
| ManagerScheduling.AssignFromStep | backend/routers/manager_scheduling.py:358-394 | a case with a building yields its pick followed by the assignments of the rest under the bumped loads |
| ManagerScheduling.AssignFromSkip | backend/routers/manager_scheduling.py:359-360 | a case without a building yields nothing |
| ManagerScheduling.Placed | backend/routers/manager_scheduling.py:358-360 | the positions assigned are increasing and are those of cases with a building |
| ManagerScheduling.AssignFromOk | backend/routers/manager_scheduling.py:358-394 | the remaining cases are assigned exactly when each of them with a building can be scored, and the only failure is a 500 |
| ManagerScheduling.AssignFromMeaning | backend/routers/manager_scheduling.py:358-394 | each assignment made belongs to the next case with a building: its slot starts at base + position * duration and lasts the duration, it is "pending" with the strategy's note, and its inspector has the lowest score under the loads left by the earlier assignments, the first such |
| ManagerScheduling.HeadAssigned | backend/routers/manager_scheduling.py:374-394 | the first assignment is that of the first case with a building |
| ManagerScheduling.LoadsAfterCons | backend/routers/manager_scheduling.py:389 | the loads after a run of assignments are those after the first, then the rest |
| ManagerScheduling.AutoAssignMeaning | backend/routers/manager_scheduling.py:329-397 | no cases is 404, no active inspector 400; otherwise the request succeeds exactly when every case with a building can be scored and fails with 500 otherwise, every assignment is explained as above, and for a non-negative duration the slots never overlap |
| ManagerScheduling.SlotOrder | backend/routers/manager_scheduling.py:378-379 | a later position's slot starts no earlier than an earlier slot ends |
| CaseTracker.ActorOr | backend/routers/cases.py:117 | Python's `actor or default`: a given non-empty actor, else the default |
| CaseTracker.Case.constructor | backend/routers/cases.py:32-47 | a new case is "New" with no outcome and no inspector, and holds exactly one CREATE activity by the creator or "system", noted with the notes or "Case created" |
| CaseTracker.Report.constructor | backend/routers/cases.py:322-329 | an inspection report holds its id, its case and its status |
| CaseTracker.AssignCase | backend/routers/cases.py:102-124 | 404 for a missing case; otherwise the inspector is set, status and outcome are kept, and one ASSIGN activity is appended |
| CaseTracker.StatusChange | backend/routers/cases.py:137-142 | a status outside New/Scheduled/Visited/Reported/Closed is 400 whether or not the case exists; an allowed status is 404 for a missing case and accepted otherwise |
| CaseTracker.UpdateCaseStatus | backend/routers/cases.py:131-155 | fails as StatusChange says and then changes nothing; otherwise sets the status, whatever it was before, keeps outcome and inspector, and appends one STATUS_UPDATE activity |
| CaseTracker.AddComment | backend/routers/cases.py:221-241 | 404 for a missing case; otherwise only one COMMENT activity with the note is appended |
| CaseTracker.RecordReading | backend/routers/cases.py:283-304 | 404 for a missing case; otherwise only one METER_READING activity noting the reading and unit is appended |
| CaseTracker.DecideMeaning | backend/routers/cases.py:333-352 | exactly the four decisions are valid; a report is Approved exactly when the case is closed; only Reject leaves the case alone; the outcomes are Fraud, No Issue and Recheck, and Recheck reopens the case as "Reported" |
| CaseTracker.Review | backend/routers/cases.py:311-370 | 404 for a missing case or a report of another case, 400 for an unknown decision, each changing nothing; otherwise the report, outcome and status follow the decision table, the inspector is kept, and one REVIEW activity is appended |
| FeatureEngineeringTest.ResolveRawPath | tests/feature_engineering_test.py:48-63 | a path is found exactly when one of latest_ingested.csv, data/raw/data.xlsx and the fallback exists, and it is the first of them that does; otherwise a not-found error listing all three |
| FeatureEngineeringTest.CanonicalizeForModel | tests/feature_engineering_test.py:66-101 | the frame keeps its columns, their order and their values; only names change |
| FeatureEngineeringTest.RenameMapShape | tests/feature_engineering_test.py:76-93 | the rename map only ever renames one of the three known alternatives |
| FeatureEngineeringTest.PairInMap | tests/feature_engineering_test.py:78-93 | an alternative is renamed exactly when its canonical name is absent and it is present, it is renamed to that canonical name, and nothing else is renamed to it |
| FeatureEngineeringTest.CanonicalizeIsRename | tests/feature_engineering_test.py:95-101 | renaming only when the map is non-empty is the same as always renaming with it |
| FeatureEngineeringTest.UnrelatedColumnsUntouched | tests/feature_engineering_test.py:76-101 | a column that is not one of the alternatives is left as it was |
| FeatureEngineeringTest.CanonicalNamePresent | tests/feature_engineering_test.py:78-99 | afterwards a canonical name is present exactly when it or its alternative was; when it was already present the alternative is not renamed |
| FeatureEngineeringTest.AbsentAlternativeStaysAbsent | tests/feature_engineering_test.py:78-99 | an alternative that is absent does not appear |
| FeatureEngineeringTest.AbsentNotRenamed | tests/feature_engineering_test.py:76-93 | an absent alternative is neither renamed nor a rename target |
| FeatureEngineeringTest.PairIdle | tests/feature_engineering_test.py:78-93 | a canonicalised frame needs no rename for any pair |
| FeatureEngineeringTest.CanonicalizeIdempotent | tests/feature_engineering_test.py:66-101 | canonicalising twice is the same as canonicalising once |
| FeatureEngineeringTest.CanonicalKeeps | tests/feature_engineering_test.py:76-101 | a column that is not an alternative keeps its values under its name |
| FeatureEngineeringTest.CountImputed | tests/feature_engineering_test.py:118-120 | a present floor or apartment count has only positive non-missing values after zeros become missing and imputation succeeds |
| FeatureEngineeringTest.CountKept | tests/feature_engineering_test.py:121-124 | the ratios and the renaming keep the counts' values |
| FeatureEngineeringTest.CountSurvivesCleaning | tests/feature_engineering_test.py:116-129 | a count column is still present and positive after the whole cleaning |
| FeatureEngineeringTest.SanityChecksHold | tests/feature_engineering_test.py:126-129 | with both count columns given, the script's positivity assertions hold whenever imputation succeeds |

## Left out

- AshaTuner.Snap: requires `u >= 0`, which a Sobol or uniform draw always meets; a negative `u` would index from the end in Python.
- OcsvmTuner.Tune: keeps the NaN-ignoring variance where the source stores `np.nanstd`, since square roots are not modelled; the ordering and the best row do not depend on it.
- OcsvmTuner.Tune: returns `None` as the best row when there is no iteration, where the source fails at `df.iloc[0]`.
- NaN and `None` metrics are both modelled as an absent value (`None`), and so is their JSON `null`.
- Trials.Sweep, SlowTuner.TuneFusedSlow and FastTuner.RunTrial: a `None` metric (as opposed to NaN) makes the source's formatted success print raise after the row was appended, so the source then appends a second, failed row at -1e9 and, in the slow and fast tuners, skips the best and `no_improve` updates; the model records the one row and updates as for NaN.
- Floating-point rounding is not modelled: every computation is exact over the reals. This matters where a result sits on a boundary: ASHA's `ceil(0.33 * n)` survivors (AshaTuner.Keep), Ocsvm.Percentile's interpolation, the `linspace` thresholds in Inference, OcsvmTuner.NuDraw, Reports.Round and ManagerScheduling's three-decimal rounding, and the ratios with `+ 1e-6` denominators.
- FastTuner.TuneFast: its `best` is the best row kept inside the loop (the first row with the highest score); the script's summary instead reads `df.iloc[0]` of the table sorted by score, which is the head of the model's sorted `results`.
- UtilsSchema.StandardizeColumns: updates the caller's frame, where `df.rename` in the source returns a renamed copy and the caller's frame is left as it was; the returned frame is the same.
- Error paths that are not modelled: the 500 of data_ops `int(nan)` on a NaN rank; the `ValueError` of the registry's `relative_to` for a path outside the models directory; ASHA's `KeyError` when a stage has no surviving row; `stab.get` on a JSON `null` stability block in composite scoring.
- InspectorRouter.ConfirmMeaning: the "Unsupported action" 400 of `confirm_visit` is not modelled, because the request type admits only the three actions.
- ManagerScheduling.AutoAssign: the case order is the database query's order, taken as an input; the unused `max_radius_km` parameter is dropped.
- ManagerScheduling.AutoAssignMeaning: a building without a coordinate, under proximity ranking for an inspector with a home, makes haversine fail on `None` in the source; the model returns `Err(500)`.
- Numeric.RoundHalfEven: works on exact reals, not on binary floats, so a float that is not exactly a half rounds as its exact value would.
- Clocks and stamps (`datetime.utcnow`, `time.time`) are parameters; where the source reads the clock twice, a single `now` stands for both.
- Text.Lower: lower-cases ASCII letters only, where Python's `str.lower` covers all of Unicode.
- Reports: the SQL counts, case ages and month keys are inputs. SQL `TRIM` is modelled as Python's `strip`. `inspector_productivity` and the export are not modelled.
- AshaTuner.PadCandidates: the padding draws are a finite sequence given as input, so padding may stop short where the source would draw forever.
- Sorting.SortBy: the tie order of pandas and numpy sorts is modelled as a stable sort.
- Foreign steps are parameters:
  - KNN imputation, PowerTransformer and the sklearn pipeline, `predict`;
  - haversine, the Mahalanobis and copula scorers;
  - One-Class SVM, PCA and the scalers, silhouette and Davies-Bouldin;
  - the drift report's standard deviation.
- Registry: a model without a PCA file has no `pca` key rather than a `null` entry; plots and diagnostics are not modelled.
- Handlers outside the core are not modelled:
  - data_ops `health`, `public_stats`, `drift_report`, `analyze`, the PDF and the history;
  - inspector `me`, `update_me` and `schedule`;
  - manager_scheduling `inspectors`, `appointments`, `workload`, `assign`, `reschedule`, `reassign` and `overview`;
  - cases `list_cases`, `get_case_detail` and `upload_case_attachment`;
  - validation `df_to_buildings`.
- File and database I/O are not modelled: CSV, Excel and JSON reads and writes, joblib, SQLAlchemy sessions and commits. Neither are FastAPI routing, printing and logging.
- The training core (`run_pipeline`, `build_residual`, `winsorize_and_ratios`) is imported from src/models/train_models.py. That file holds only an IsolationForest stub, so the training core is not part of this model.
- The following are not part of this model:
  - the autoencoder, the Keras and tanh `score_row` versions;
  - authentication (bcrypt, JWT), job queues and workers;
  - the older copies under backend/app.

## Findings

| source | as written | input that shows it | evidently intended | confidence | as-written member | corrected member |
|---|---|---|---|---|---|---|
| src/data_loading/feature_engineering.py:44-50 | `handle_skewness` reads the log-transformed floor column whether or not it was created | a frame whose floor count has skewness at most 1, so no log column is made | transform only the log columns that were made, then drop the raw columns | not executed | Engineering.SkewnessFailsWithoutLogFloors | Engineering.IntendedSucceeds |
| backend/utils/assign.py:16 | the week ends at start + 7 days - 1 second | a datetime in the last second of the week with a non-zero microsecond part falls after the end | the week ends one microsecond before the next week starts, so every datetime lies within its own week's bounds | not executed | WeekBounds.LastSecondEscapes | WeekBounds.IntendedBoundsMeaning |
