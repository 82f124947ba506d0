# carla-data-collector: a verified model of the collector's bookkeeping

This project models, in Dafny, the sequential logic around the CARLA data
collector:

- **Step loop and jobs.** The step loop writes a record every
  `data_write_freq` steps, re-sets the agent after a collision or a finished
  route, and stops early in single-scenario mode. Jobs are the weather ×
  behavior product, and each job's file name is derived from the town, the
  weather and the behavior.
- **Setup.** The collector's write path and step budget, the pairing of
  route rows, and the saved configuration.
- **Per-step records.** Event flags plus an ordered dictionary merge, in
  which a later source overrides an earlier one.
- **Archive writer.** Collision-free file names, the shard index search,
  record shaping and the `sample%06d` key.
- **Helpers.** The semantic-label palette, the `skip_run` switch, the
  recursive dictionary merge, the choice of the newest checkpoint, and the
  checkpoint option guards.
- **Front-RGB experiment.** Its termination counters and its three-slot
  image history.
- **Waypoint flattening** with a fallback pose.
- **Bézier fit** validation and endpoint pinning.

Everything the program gets from outside becomes an input:
- the simulator's per-step answers;
- the filesystem's set of existing paths;
- the directory walk;
- the JSON encoder's verdict on a value;
- the image post-processing;
- the pseudo-inverse fit.

The calls the collector makes to the writer, the agent and the filesystem
are logged as a trace of `Call` values. The trace is a field of the
collector object.

Modules, one per source file:

| module | source |
|---|---|
| `Common` | shared values, exceptions and the mutable `Dict` object |
| `Decimal` | `str(n)`, `int(s)` and `%0Nd` |
| `Utils` | utils.py |
| `ArchiveWriter` | data_writer.py |
| `CoreHelper` | core/helper.py |
| `FlairExperiment` | experiments/flair_experiment.py |
| `Navigation` | agents/navigation/utils.py |
| `Bezier` | `get_bezier_parameters` in modules/helpers.py |
| `PreProcess` | modules/pre_process.py |
| `LegacyPreProcess` | pre_process.py |
| `CollectorSpec` | the pure part of modules/data_collector.py |
| `DataCollection` | the objects and loops of modules/data_collector.py |

Where the code and its own documentation disagree, the model follows the
code. The docstrings of `get_nonexistant_path` show a `-1` suffix, but the
code formats `_1`, `_2`, ...

## Model

| member | source | states |
|---|---|---|
| Decimal.Format0d | data_writer.py:68 | `%0Nd` yields only digits, padded to at least the width |
| Decimal.Format0dRoundTrip | data_writer.py:68 | reading a zero-padded numeral back gives the formatted number |
| Decimal.Format0dInjective | data_writer.py:68 | distinct indices give distinct padded numerals |
| Decimal.IntToStringRoundTrip | core/helper.py:66-69 | `int(str(n)) == n` for every integer |
| Decimal.ParseInt | core/helper.py:66 | `int(s)` on an optional sign and decimal digits, None where Python raises ValueError; an unsigned numeral reads as a non-negative number |
| Utils.SplitExt | utils.py:74 | stem + extension is the path; the extension is empty, or a '.' followed by text holding neither '.' nor '/' |
| Utils.Renamed | utils.py:74-79 | the `i`-th candidate is the stem, `_`, the decimal `i` and the extension |
| Utils.RenamedInjective | utils.py:76-79 | distinct counters give distinct candidate names |
| Utils.Render | utils.py:94-97 | `pattern % index` for a pattern with one `%0Nd` directive: the text around it with the zero-padded index between |
| Utils.GetNonexistentPath | utils.py:72-80 | the result never exists; a free path is returned unchanged; otherwise the result is `stem_i.ext` for the least `i >= 1` that is free |
| Utils.RenderInjective | utils.py:94-97 | distinct shard indices render to distinct file names |
| Utils.GetNonexistentShardPath | utils.py:94-99 | the pattern itself when shard 0 is not a regular file; otherwise the least index `>= 1` whose rendering does not exist (the first test checks files, the later ones any path) |
| Utils.ClassColor | utils.py:121-135 | the class table is defined exactly on labels 0..12 |
| Utils.PaletteColor | utils.py:136-140 | every colour fits in uint8; a label outside the table stays black |
| Utils.PaletteRoundTrip | utils.py:121-135 | labels 1..12 get distinct non-black colours, so the colour recovers the label; every other label maps to black |
| Utils.LabelsToCityscapesPalette | utils.py:116-140 | a fresh array of the input's height and width whose every pixel is its label's colour |
| Utils.SkipRun | utils.py:15-44 | `'skip'` leaves the state untouched and raises nothing; any other flag runs the block and lets its exceptions through, except `SkipWith`, which is swallowed so that nothing is raised |
| ArchiveWriter.SampleKey | data_writer.py:68 | the key is `sample` followed by exactly `max(6, len(str(index)))` digits whose value is the index |
| ArchiveWriter.SampleKeyInjective | data_writer.py:68 | distinct indices give distinct keys |
| ArchiveWriter.UpToFirstDot | data_writer.py:41 | the result is the part of the path before its first '.', and holds no '.' |
| ArchiveWriter.ConfigPath | data_writer.py:41 | the manifest path is the tar path up to its first '.', followed by `_configuration.json` |
| ArchiveWriter.ConfigPathIgnoresNameAfterDot | data_writer.py:34-41 | when the directory holds a '.', the manifest path no longer depends on the file name |
| ArchiveWriter.Serializable | data_writer.py:52-59 | exactly the entries whose values are serialisable, unchanged |
| ArchiveWriter.ShapeSample | data_writer.py:61-71 | succeeds iff `rgb` is present and raises KeyError otherwise; on success the key is `sample%06d`, the image is the old `rgb` value, and the JSON payload holds exactly the serialisable non-`rgb` entries |
| ArchiveWriter.WebWriter.constructor | data_writer.py:32-43 | the tar path is the first free variant of `write_path + file_name + '.tar'`; the manifest goes to that path up to its first '.' plus `_configuration.json` |
| ArchiveWriter.WebWriter.GetSerializableData | data_writer.py:52-59 | deletes from the caller's dict exactly the unserialisable entries and returns the same dict |
| ArchiveWriter.WebWriter.Sample | data_writer.py:61-71 | the result is the shaped sample; the caller's dict loses `rgb` and the unserialisable entries |
| ArchiveWriter.WebWriter.Write | data_writer.py:73-74 | one shaped sample is appended to the sink and the caller's dict keeps only the serialisable non-`rgb` entries; or the KeyError is passed on with the sink and the dict unchanged |
| CoreHelper.JoinDicts | core/helper.py:39-50 | keys are those of `d` and `u`; keys only in `d` keep their values; a non-mapping value of `u` overwrites; a mapping value is merged recursively into `d.get(k, {})`; fails iff a nested merge fails |
| CoreHelper.JoinNested | core/helper.py:46-47 | merging into a mapping yields a mapping |
| CoreHelper.JoinEmptyIsIdentity | core/helper.py:43-50 | `join_dicts(d, {}) == d` |
| CoreHelper.JoinIntoEmpty | core/helper.py:43-50 | `join_dicts({}, u) == u` |
| CoreHelper.JoinWithSelf | core/helper.py:43-50 | `join_dicts(d, d) == d` |
| CoreHelper.Split | core/helper.py:64 | `split` yields at least one field, and exactly one iff the separator is absent; no field holds the separator, and joining the fields with it gives the string back |
| CoreHelper.SplitJoin | core/helper.py:64 | splitting separator-free fields joined by the separator gives them back, so a string has exactly one split |
| CoreHelper.Qualifies | core/helper.py:64 | a directory qualifies iff its text before the first `_` occurs in `"checkpoint_"` (a substring test) |
| CoreHelper.CheckpointNumber | core/helper.py:66 | the number is `int` of the second `_`-separated field; no second field raises IndexError, an unparsable one ValueError |
| CoreHelper.CheckpointNameRead | core/helper.py:64-66 | a directory named `checkpoint_` followed by a zero-padded number qualifies and reads as that number |
| CoreHelper.Read | core/helper.py:64-66 | a directory is skipped when it does not qualify, faults with the exception of reading its number, or carries that number |
| CoreHelper.CheckpointPath | core/helper.py:69-70 | the path recorded for a maximum is `root/dir/checkpoint-N` |
| CoreHelper.Scan | core/helper.py:62-70 | the inner loop folded over the directories in walk order: a strictly larger number replaces the maximum and its path, the first fault ends the walk |
| CoreHelper.Outcome | core/helper.py:53-77 | the final test on the scan: a fault is raised, an empty path raises FileNotFoundError, otherwise the path is returned |
| CoreHelper.Latest | core/helper.py:53-77 | `find_latest_checkpoint` of a walk is `Outcome` with directory names read as the source reads them |
| CoreHelper.ScanStopsAtError | core/helper.py:62-66 | once a directory number fails to parse, the rest of the walk does not matter |
| CoreHelper.ScanFirstFault | core/helper.py:62-66 | the first unreadable checkpoint directory decides the exception |
| CoreHelper.ScanNoFault | core/helper.py:57-70 | without unreadable directories, the scan ends with the largest number (at least -1) and the path of the first directory carrying it |
| CoreHelper.BestPicksFirstMaximum | core/helper.py:72-77 | the final check raises FileNotFoundError iff no number is non-negative, else returns the first maximum's path |
| CoreHelper.OutcomePicksFirstMaximum | core/helper.py:53-77 | the same for any way of reading directory names |
| CoreHelper.LatestPicksFirstMaximum | core/helper.py:53-77 | `find_latest_checkpoint` returns `root/dir/checkpoint-N` for the first directory with the largest N, or raises FileNotFoundError iff no N is non-negative |
| CoreHelper.LatestRaisesFirstFault | core/helper.py:53-77 | `find_latest_checkpoint` raises the exception of the first unreadable checkpoint directory in walk order |
| CoreHelper.ScanEntry | core/helper.py:63-70 | the inner loop over one entry's directories continues the scan exactly |
| CoreHelper.FindLatestCheckpoint | core/helper.py:53-77 | the nested loops compute `Latest(walk)` |
| CoreHelper.PathJoin | core/helper.py:82 | `os.path.join` of two components: an absolute second part replaces the first, otherwise they are joined with one `/` |
| CoreHelper.Restored | core/helper.py:94-95 | the restore branch returns the latest checkpoint path, or raises what the search raised |
| CoreHelper.GetCheckpoint | core/helper.py:80-97 | both flags raise RuntimeError; overwrite removes an existing directory and returns None; restore returns the latest checkpoint (or its exception); neither flag returns None |
| FlairExperiment.Tick | experiments/flair_experiment.py:47-53 | one update of the timers: the idle time resets on movement and grows by one otherwise; the episode time always grows by one |
| FlairExperiment.TrailingStill | experiments/flair_experiment.py:48-51 | counts the calls at the end of the history without movement; the call before them moved |
| FlairExperiment.RunFromReset | experiments/flair_experiment.py:48-53 | from a reset, the episode timer counts calls and the idle timer counts calls since the hero last moved |
| FlairExperiment.IdleTimeout | experiments/flair_experiment.py:47-51 | the idle timeout fires iff the hero stood still for more than `max_time_idle` consecutive calls |
| FlairExperiment.Prime | experiments/flair_experiment.py:115-118 | an empty history is filled with the current image in all three slots; a full one is kept |
| FlairExperiment.Shift | experiments/flair_experiment.py:130-132 | after stacking, the slots move one place back and the image enters the first |
| FlairExperiment.Stack | experiments/flair_experiment.py:121-128 | the image, preceded by `prev_0` when `frame_stack >= 2`, then `prev_1` when `>= 3`, then `prev_2` when `>= 4` |
| FlairExperiment.StackIsSuffix | experiments/flair_experiment.py:121-128 | the stack is `[prev2, prev1, prev0, image]` cut to the last `min(max(frame_stack, 1), 4)` entries |
| FlairExperiment.HistoryHoldsRecentFrames | experiments/flair_experiment.py:115-132 | the slots hold the three latest frames, the episode's first frame standing in for missing ones |
| FlairExperiment.StackShowsRecentFrames | experiments/flair_experiment.py:115-132 | the stacked observation shows the latest frames in order, padded with the first |
| FlairExperiment.FrontRgbExperiment.Reset | experiments/flair_experiment.py:67-89 | zeroes the timers, the collision count, the last velocity and the heading deviation; clears every done flag, `collided` and the three image slots; leaves the last observation alone |
| FlairExperiment.FrontRgbExperiment.GetDoneStatus | experiments/flair_experiment.py:44-65 | the idle test uses the idle time from before the update; the timers tick; falling is `z < -0.5`; `collided` is sticky once `n_collision > 3`; the result is the disjunction |
| FlairExperiment.FrontRgbExperiment.PreprocessSensorData | experiments/flair_experiment.py:91-94 | one more collision iff the dict has a `collision` key |
| FlairExperiment.FrontRgbExperiment.GetObservation | experiments/flair_experiment.py:96-136 | counts the collision; raises KeyError without `rgb`; otherwise primes the empty history, returns the frame stack and shifts the history |
| Navigation.ProcessWaypoints | agents/navigation/utils.py:1-21 | one `[x, y, yaw]` row per waypoint, in order, from its transform or from the current position |
| Bezier.Linspace | modules/helpers.py:192 | `n` evenly spaced parameters: the first 0, the last 1, and the `i`-th times `n - 1` equal to `i` |
| Bezier.Bmatrix | modules/helpers.py:184-186 | one row per parameter, `degree + 1` columns |
| Bezier.CombEnds | modules/helpers.py:182 | `comb(n, 0) == comb(n, n) == 1` |
| Bezier.BernsteinEndpoints | modules/helpers.py:180-193 | the first row of the Bernstein matrix weighs only the first control point and the last row only the last |
| Bezier.GetBezierParameters | modules/helpers.py:155-199 | the three ValueErrors in the source's order; success iff none applies; then `degree + 1` control points, the first and last pinned to the first and last data point, the interior ones the fit's rows unchanged |
| PreProcess.StepRecord | modules/pre_process.py:36-43 | keys are the union of all six dicts; each value comes from the latest dict holding the key (sensor < waypoint < traffic < vehicle < collision < other) |
| PreProcess.WithEventFlags | modules/pre_process.py:29-33 | `obstacle` and `collision` say whether each key was present; every other entry is unchanged |
| PreProcess.DefaultOtherAlwaysWins | modules/pre_process.py:18-43 | with the default `other_data`, the record has `other_data: -1` |
| PreProcess.CollisionFlagInRecord | modules/pre_process.py:29-43 | the record always has `collision`; unless a later dict overrides it, it says whether the sensors reported one |
| PreProcess.PreProcessData.constructor | modules/pre_process.py:2-4 | the collision count starts at 0 |
| PreProcess.PreProcessData.PreprocessSensorData | modules/pre_process.py:6-9 | one more collision iff the dict has a `collision` key |
| PreProcess.PreProcessData.Process | modules/pre_process.py:11-44 | writes the flags into the caller's dict, then returns the six-way merge; the default `vehicle_data=-1` raises TypeError; `n_collision` is unchanged |
| LegacyPreProcess.StepRecord | pre_process.py:28-34 | keys are the union of the five dicts; precedence sensor < waypoint < traffic < vehicle < other |
| LegacyPreProcess.DefaultOtherAlwaysWins | pre_process.py:17-34 | with the default `other_data`, the record has `other_data: -1` |
| LegacyPreProcess.PreProcessData.constructor | pre_process.py:3-5 | the collision count starts at 0 |
| LegacyPreProcess.PreProcessData.PreprocessSensorData | pre_process.py:7-10 | one more collision iff the dict has a `collision` key |
| LegacyPreProcess.PreProcessData.Process | pre_process.py:12-35 | the five-way merge of the arguments as given; the default `vehicle_data=-1` raises TypeError |
| CollectorSpec.WritePath | modules/data_collector.py:100-102 | the write directory is `write_path/<navigation type>/`, `None` meaning `straight` |
| CollectorSpec.NavigationOrDefault | modules/data_collector.py:100-101 | a missing navigation type means `'straight'` |
| CollectorSpec.ConfiguredSteps | modules/data_collector.py:100-105 | navigation type `'navigation'` forces 300000 steps; any other keeps the configured budget |
| CollectorSpec.WritePathInjective | modules/data_collector.py:100-102 | two navigation types share a directory iff they are equal, `None` counting as `'straight'` |
| CollectorSpec.FileName | modules/data_collector.py:188-190 | the job's file name is town, weather and behavior joined by `_` |
| CollectorSpec.FileNameInjective | modules/data_collector.py:188-190 | with underscore-free weather names, the file name determines the weather and the behavior |
| CollectorSpec.Product | modules/data_collector.py:176-180 | the product has `|weathers| * |behaviors|` jobs |
| CollectorSpec.ProductIndex | modules/data_collector.py:176-181 | the pair `(w_i, b_j)` is job `i * |behaviors| + j`, in product order |
| CollectorSpec.ProductMembers | modules/data_collector.py:176-181 | every pair of the product appears, and nothing else |
| CollectorSpec.ProductDistinct | modules/data_collector.py:176-181 | with duplicate-free lists, no pair is visited twice |
| CollectorSpec.Product3 | modules/data_collector.py:238-242 | the parallel collector enumerates `|weathers| * |behaviors| * |navigation types|` jobs |
| CollectorSpec.Product3Index | modules/data_collector.py:238-242 | `(w_i, b_j, n_l)` sits at `(i * |B| + j) * |N| + l` |
| CollectorSpec.Pairs | modules/data_collector.py:142-144 | the route has `len(data) / 2` points |
| CollectorSpec.Unpair | modules/data_collector.py:142-144 | flattening the points gives twice as many rows |
| CollectorSpec.PairsRoundTrip | modules/data_collector.py:142-144 | an even-length route file is exactly its points, flattened |
| CollectorSpec.UnpairRoundTrip | modules/data_collector.py:142-144 | pairing flattened points gives them back |
| CollectorSpec.ConfigKey | modules/data_collector.py:26 | a configuration entry is saved under `key + '_config'` |
| CollectorSpec.ConfigKeyInjective | modules/data_collector.py:24-26 | distinct config keys get distinct `_config` names |
| CollectorSpec.TownValue | modules/data_collector.py:108 | `config['experiment']['town']`: KeyError for a missing `experiment` or `town`, TypeError for a non-dict `experiment`, otherwise the stored value |
| CollectorSpec.TownOf | modules/data_collector.py:29-30 | the town is usable iff the lookup succeeds and gives a string; lookup errors pass on, and a non-string town raises TypeError at the concatenation |
| CollectorSpec.OverrideSteps | modules/data_collector.py:104-105 | sets `collector.steps` to 300000 and keeps every other entry of `collector` and of the configuration; a missing `collector` raises KeyError, a non-dict one TypeError |
| CollectorSpec.EffectiveConfig | modules/data_collector.py:98-105 | the override is applied exactly for navigation type `'navigation'` |
| CollectorSpec.PlainRecord | modules/data_collector.py:86-93 | the union of the five dicts, with precedence sensor < waypoint < traffic < vehicle < collision |
| CollectorSpec.ProcessedRecord | modules/data_collector.py:78-85 | the preprocessed record always has a `collision` entry |
| CollectorSpec.ProcessedRecordIsStepRecord | modules/data_collector.py:78-85 | the preprocessed record is `process` over the flagged sensors with the default `other_data` |
| CollectorSpec.Resets | modules/data_collector.py:161-162 | a step re-sets the agent iff its record's `collision` is truthy or the agent is done |
| CollectorSpec.Stops | modules/data_collector.py:164-165 | a step ends the loop iff single-scenario and the agent, the fresh one after a re-setup, is done |
| CollectorSpec.StepCalls | modules/data_collector.py:154-162 | step `i` collects, then writes when `i % freq == 0`, then re-sets the agent when it resets |
| CollectorSpec.LoopTrace | modules/data_collector.py:152-162 | the calls of steps `0 .. n-1`, in order |
| CollectorSpec.RunFrom | modules/data_collector.py:152-165 | counting from step `i`, the loop runs up to the budget and stops after the first step whose agent is done in single-scenario mode |
| CollectorSpec.Executed | modules/data_collector.py:152-165 | the number of steps `write_loop` runs, counting from 0 |
| CollectorSpec.LoopCalls | modules/data_collector.py:151-165 | the calls after the tar file: the loop trace over the executed steps, or a single collection before the ZeroDivisionError of a zero frequency |
| CollectorSpec.LoopFails | modules/data_collector.py:156-157 | the loop raises exactly when the frequency is zero and at least one step runs |
| CollectorSpec.WriteSchedule | modules/data_collector.py:152-158 | a record is written under index `i` iff step `i` ran, `i % data_write_freq == 0`, and the record is step `i`'s |
| CollectorSpec.LoopTraceCalls | modules/data_collector.py:147-165 | the loop only collects, writes and re-sets the agent; the tar file is created outside it |
| CollectorSpec.SetupBeforeNextStep | modules/data_collector.py:152-162 | each step starts by collecting data, and the call just before step `i + 1` is a re-setup iff step `i` saw a collision or a finished route |
| CollectorSpec.SingleScenarioExit | modules/data_collector.py:152-165 | the loop runs at most `steps` steps, none when the budget is not positive, and stops right after the first step whose (possibly fresh) agent is done |
| CollectorSpec.RunFromBounds | modules/data_collector.py:152-165 | the same, counting from any step |
| CollectorSpec.AllStepsRun | modules/data_collector.py:152-165 | outside single-scenario mode every step of the budget runs |
| DataCollection.SaveConfiguration | modules/data_collector.py:19-34 | every config entry except `experiment` is added to the client config under `key + '_config'`; client entries not overwritten are kept; the file is `write_path + town + '_configuration.json'`; a bad town raises as Python does |
| DataCollection.SaveOneKey | modules/data_collector.py:24-26 | one pass of the copy loop keeps what was already copied |
| DataCollection.JobCalls | modules/data_collector.py:181-193 | one job: set the weather, set up the agent with the job's behavior, create the tar file `town_weather_behavior`, then the loop's calls |
| DataCollection.JobsTrace | modules/data_collector.py:176-193 | the calls of the first `k` jobs, in product order |
| DataCollection.AgentManager.constructor | modules/data_collector.py:37-44 | the agent starts with the `normal` behavior and no steps |
| DataCollection.AgentManager.SetupAgent | modules/data_collector.py:47-66 | a given behavior replaces the current one; no behavior keeps it |
| DataCollection.AgentManager.CollectData | modules/data_collector.py:68-94 | with a preprocessor, the flagged six-way merge; without one, the five-way merge |
| DataCollection.DataCollector.constructor | modules/data_collector.py:98-105 | the write path is `write_path/nav/`, and the step budget follows the navigation type |
| DataCollection.DataCollector.Create | modules/data_collector.py:98-132 | the steps override, the town lookup, the route points, the directory and the saved configuration happen in that order, the first failure aborting; success iff the town is a string and the row count is even; the dumped file holds the client config plus every non-`experiment` entry under `key_config` |
| DataCollection.DataCollector.ConstructRoutePoints | modules/data_collector.py:134-145 | the points are the consecutive pairs; an odd count raises IndexError after the complete pairs were appended |
| DataCollection.DataCollector.WriteLoop | modules/data_collector.py:147-167 | creates the tar file once, then logs exactly the step loop's calls; a zero frequency raises ZeroDivisionError after the first collection |
| DataCollection.DataCollector.StepLoop | modules/data_collector.py:151-167 | the loop's calls are `LoopTrace` over exactly the steps that run |
| DataCollection.DataCollector.Step | modules/data_collector.py:152-165 | one step collects, writes on a multiple of the frequency, re-sets the agent on a collision or a finished route, and stops iff single-scenario and the agent is done |
| DataCollection.DataCollector.RunJob | modules/data_collector.py:181-193 | a job sets the weather, sets up the agent with the job's behavior, and runs the loop on `town_weather_behavior` |
| DataCollection.DataCollector.Collect | modules/data_collector.py:169-196 | runs the jobs in product order and then closes the writer; a failing loop propagates after the first job and leaves the writer open; the agent keeps the last job's behavior |

## Left out

- Concurrency: the multiprocessing fan-out of `ParallelDataCollector` and `single_instance_collector` (modules/data_collector.py:208-261). Only its job enumeration is modelled (`CollectorSpec.Product3`).
- `KeyboardInterrupt` handling, `kill_all_servers` and the progress prints in `collect` (modules/data_collector.py:198-205). These are process control.
- The CARLA server, the agent and the world: setting the weather, resetting the server, building the `BehaviorAgent` and the destination. Only the calls are logged, as trace entries.
- DataCollection.AgentManager.SetupAgent: tracks only the behavior. The server reset and the new agent are left out.
- Re-setups inside the step loop: they keep the behavior, so the model only logs them as `SetupAgent(None)` and takes the fresh agent's `done()` answer from the simulator input.
- The route file is not read. The rows `pandas.read_xml` would return are a parameter.
- DataCollection.DataCollector.Create: leaves out the assignment to `cfg['vehicle']['route_points']`, the `CARLA_ROOT` variable, and the server and writer construction. These touch the environment or external classes, and a missing `vehicle` key is therefore not modelled.
- DataCollection.DataCollector.constructor: reads the town, weathers, behaviors, steps and write frequency from a typed `Settings` value, not from the nested configuration dict. The town used for job file names is taken to be the configuration's `experiment.town`, which `Create` reads from the dict itself.
- The collector's writer, `create_tar_file`, `close` and shard rollover. modules/data_writer.py is not part of this model, so the writer appears only as `CreateTar`, `Write` and `CloseWriter` calls.
- Python's `i % freq` and Dafny's `%` differ for a negative frequency, but both are zero exactly when `freq` divides `i`, which is the only test made. A zero frequency is modelled as the ZeroDivisionError it raises.
- The get_nonexistant_path in data_writer.py:9-28 is a verbatim copy of utils.py:61-80. It is modelled once, as `Utils.GetNonexistentPath`, which the archive writer uses.
- The filesystem is a set of existing paths, and regular files are a second set. Directory creation, `rmtree`, `os.walk` and file writes are inputs or results, not effects.
- Image data: `PIL` conversion, `post_process_image`, the `swapaxes` and `concatenate` numerics, and the gym observation space. Images are an opaque type, and the stack is a sequence of them.
- FlairExperiment.FrontRgbExperiment.Reset: leaves out `last_location`, which holds a simulator object.
- `compute_reward`, the ego/world projections, plotting, `show_image`, `launch_tensorboard`, `find_tar_files` and the stdout/stderr colour printing.
- The pseudo-inverse fit of the Bézier curve. It is the function parameter `leastSquares`, which returns row `k` of the fitted control points. Coordinates are `real`, not floating point.
- The JSON encoder: `_is_jsonable` is the predicate parameter `jsonable`.
- `int()` is modelled on an optional sign followed by decimal digits. Surrounding whitespace and underscores, which Python also accepts, are not modelled.
- CoreHelper.JoinNested: any failed nested merge is a single `None`, without telling the AttributeError and TypeError cases apart.
- Values that are neither scalars nor containers (arrays, images, simulator handles) are opaque `Blob`s. Their copying and mutation are not modelled.
- Utils.Render: a shard pattern holds exactly one `%0Nd` directive, as prefix, width and suffix. Other `%` formats, and patterns that make `%` raise, are not modelled.
- Common.Truthy: a `Blob` counts as true. A numpy array, whose `bool()` raises for more than one element, is not modelled.
- The configuration is assumed JSON-serialisable. The TypeError that `json.dump` can raise in `WebWriter.__init__` (data_writer.py:42) and in `save_configuration` (modules/data_collector.py:32) is not modelled.
