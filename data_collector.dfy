/// modules/data_collector.py, imperative part: `save_configuration`, the
/// agent manager and the collector object with its step loop. The
/// simulator and the agent are the oracle `world`; the writer, the agent
/// and the filesystem are observed through the call log `trace`.
module DataCollection {
  import opened Common
  import PreProcess
  import opened CollectorSpec

  lemma AppendAssociates<T>(a: seq<T>, b: seq<T>, c: seq<T>)
    ensures (a + b) + c == a + (b + c)
  {
  }

  lemma AppendAssociates4<T>(a: seq<T>, b: seq<T>, c: seq<T>, d: seq<T>)
    ensures a + b + c + d == a + (b + c + d)
  {
  }

  datatype SavedConfig = SavedConfig(path: string, content: map<string, Value>)

  /// `save_configuration(config, client, write_path)`, with `inspect(client)`
  /// given as `clientConfig`: every config entry but `experiment` is added
  /// under `<key>_config`, and the file is named after the town.
  method SaveConfiguration(config: map<string, Value>, clientConfig: map<string, Value>, writePath: string)
    returns (r: Result<SavedConfig, Exception>)
    ensures r.Err? <==> TownOf(config).Err?
    ensures r.Err? ==> r.error == TownOf(config).error
    ensures r.Ok? ==> r.value.path == writePath + TownOf(config).value + "_configuration.json"
    ensures r.Ok? ==> r.value.content.Keys == clientConfig.Keys + ConfigKeys(config.Keys)
    ensures r.Ok? ==> forall key :: key in config && key != "experiment" ==> r.value.content[ConfigKey(key)] == config[key]
    ensures r.Ok? ==> forall key :: key in clientConfig && key !in ConfigKeys(config.Keys) ==> r.value.content[key] == clientConfig[key]
  {
    var content := clientConfig;
    var remaining := config.Keys;
    ghost var visited: set<string> := {};
    while remaining != {}
      invariant remaining + visited == config.Keys && remaining !! visited
      invariant SavedSoFar(config, clientConfig, visited, content)
      decreases remaining
    {
      var key :| key in remaining;
      SaveOneKey(config, clientConfig, visited, content, key);
      if key != "experiment" {
        content := content[ConfigKey(key) := config[key]];
      }
      remaining := remaining - {key};
      visited := visited + {key};
    }
    var town := TownOf(config);
    if town.Err? {
      return Err(town.error);
    }
    r := Ok(SavedConfig(writePath + town.value + "_configuration.json", content));
  }

  /// The client configuration after the keys `visited` of `config` were
  /// copied in under their `_config` names.
  ghost predicate SavedSoFar(config: map<string, Value>, clientConfig: map<string, Value>, visited: set<string>,
                             content: map<string, Value>)
  {
    && content.Keys == clientConfig.Keys + ConfigKeys(visited)
    && (forall key :: key in visited && key in config && key != "experiment" ==> content[ConfigKey(key)] == config[key])
    && (forall key :: key in clientConfig && key !in ConfigKeys(visited) ==> content[key] == clientConfig[key])
  }

  /// One pass of the copy loop keeps the entries copied so far, because
  /// distinct keys get distinct `_config` names.
  lemma SaveOneKey(config: map<string, Value>, clientConfig: map<string, Value>, visited: set<string>,
                   content: map<string, Value>, key: string)
    requires key in config && key !in visited
    requires SavedSoFar(config, clientConfig, visited, content)
    ensures SavedSoFar(config, clientConfig, visited + {key},
                       if key != "experiment" then content[ConfigKey(key) := config[key]] else content)
  {
    assert ConfigKeys(visited + {key}) ==
           ConfigKeys(visited) + (if key != "experiment" then {ConfigKey(key)} else {});
    if key != "experiment" {
      forall other | other in visited
        ensures ConfigKey(other) == ConfigKey(key) <==> other == key
      {
        ConfigKeyInjective(other, key);
      }
    }
  }

  class AgentManager {
    var behavior: string
    var steps: int

    constructor ()
      ensures behavior == "normal" && steps == 0
    {
      behavior := "normal";
      steps := 0;
    }

    /// `setup_agent(behavior)`: a given behavior replaces the current one,
    /// which the new agent then uses.
    method SetupAgent(behavior: Option<string>) returns (used: string)
      modifies this`behavior
      ensures this.behavior == (if behavior.Some? then behavior.value else old(this.behavior))
      ensures used == this.behavior
    {
      if behavior.Some? {
        this.behavior := behavior.value;
      }
      used := this.behavior;
    }

    /// `collect_data(pre_process)`: with a preprocessor the record is its
    /// `process` (event flags, then the six-way merge); without one, the
    /// five data dicts merged in order.
    method CollectData(d: StepData, preProcess: PreProcess.PreProcessData?) returns (data: map<string, Value>)
      ensures preProcess == null ==> data == PlainRecord(d)
      ensures preProcess != null ==> data == ProcessedRecord(d)
    {
      if preProcess != null {
        var sensorData := new Dict(d.sensor);
        var r := preProcess.Process(sensorData, d.waypoint, d.traffic, d.collision, Some(d.vehicle),
                                    PreProcess.DefaultOther);
        data := r.value;
        ProcessedRecordIsStepRecord(d);
      } else {
        data := d.sensor + d.waypoint + d.traffic + d.vehicle + d.collision;
      }
    }
  }

  /// The configuration entries the collector reads as values.
  datatype Settings = Settings(town: string, weathers: seq<string>, behaviors: seq<string>,
                               steps: int, dataWriteFreq: int)

  /// The calls of job `(weather, behavior)` of `collect`.
  function JobCalls(town: string, writePath: string, job: (string, string), steps: int,
                    obs: nat -> Observed, freq: int): seq<Call>
  {
    [SetWeather(job.0), SetupAgent(Some(job.1))] + [CreateTar(FileName(town, job.0, job.1), writePath)]
    + LoopCalls(steps, obs, freq)
  }

  /// The calls of the first `k` jobs.
  function JobsTrace(k: nat, town: string, writePath: string, jobs: seq<(string, string)>, steps: int,
                     worlds: nat -> nat -> StepAnswer, singleScenario: bool, freq: int): seq<Call>
    requires k <= |jobs|
  {
    if k == 0 then []
    else JobsTrace(k - 1, town, writePath, jobs, steps, worlds, singleScenario, freq)
         + JobCalls(town, writePath, jobs[k - 1], steps, Observations(singleScenario, worlds(k - 1)), freq)
  }

  class DataCollector {
    const writePath: string
    const town: string
    const weathers: seq<string>
    const behaviors: seq<string>
    const steps: int
    const dataWriteFreq: int
    const agentManager: AgentManager
    const preProcess: PreProcess.PreProcessData
    var routePoints: seq<(Row, Row)>
    var trace: seq<Call>

    /// The value part of `__init__`: the write path, the step budget and
    /// the collaborators.
    constructor (writePath: string, navigationType: Option<string>, settings: Settings)
      ensures this.writePath == WritePath(writePath, navigationType)
      ensures steps == ConfiguredSteps(navigationType, settings.steps)
      ensures town == settings.town && weathers == settings.weathers && behaviors == settings.behaviors
      ensures dataWriteFreq == settings.dataWriteFreq
      ensures routePoints == [] && trace == []
      ensures fresh(agentManager) && agentManager.behavior == "normal"
      ensures fresh(preProcess) && preProcess.nCollision == 0
    {
      this.writePath := WritePath(writePath, navigationType);
      steps := ConfiguredSteps(navigationType, settings.steps);
      town := settings.town;
      weathers := settings.weathers;
      behaviors := settings.behaviors;
      dataWriteFreq := settings.dataWriteFreq;
      agentManager := new AgentManager();
      preProcess := new PreProcess.PreProcessData();
      routePoints := [];
      trace := [];
    }

    /// `__init__` as a whole: the steps override on the configuration,
    /// the route points, the directory and the saved configuration, each
    /// failure aborting construction.
    static method Create(writePath: string, navigationType: Option<string>, config: map<string, Value>,
                         settings: Settings, routeRows: seq<Row>, clientConfig: map<string, Value>)
      returns (r: Result<DataCollector, Exception>)
      ensures EffectiveConfig(config, navigationType).Err? ==> r == Err(EffectiveConfig(config, navigationType).error)
      ensures EffectiveConfig(config, navigationType).Ok? ==>
        var cfg := EffectiveConfig(config, navigationType).value;
        && (TownValue(cfg).Err? ==> r == Err(TownValue(cfg).error))
        && (TownValue(cfg).Ok? && |routeRows| % 2 == 1 ==> r == Err(IndexError))
        && (TownValue(cfg).Ok? && |routeRows| % 2 == 0 && TownOf(cfg).Err? ==> r == Err(TownOf(cfg).error))
        && (r.Ok? <==> TownOf(cfg).Ok? && |routeRows| % 2 == 0)
      ensures r.Ok? ==> fresh(r.value) && r.value.writePath == WritePath(writePath, navigationType) &&
                        r.value.steps == ConfiguredSteps(navigationType, settings.steps) &&
                        r.value.routePoints == Pairs(routeRows)
      ensures r.Ok? ==>
        var cfg := EffectiveConfig(config, navigationType).value;
        && |r.value.trace| == 3
        && r.value.trace[0] == ReadRoutes(Str(TownOf(cfg).value), NavigationOrDefault(navigationType))
        && r.value.trace[1] == CreateDirectory(WritePath(writePath, navigationType))
        && r.value.trace[2].DumpConfiguration?
      ensures r.Ok? ==>
        var cfg := EffectiveConfig(config, navigationType).value;
        var dumped := r.value.trace[2].content;
        && r.value.trace[2].path == WritePath(writePath, navigationType) + TownOf(cfg).value + "_configuration.json"
        && dumped.Keys == clientConfig.Keys + ConfigKeys(cfg.Keys)
        && (forall key :: key in cfg && key != "experiment" ==> dumped[ConfigKey(key)] == cfg[key])
        && (forall key :: key in clientConfig && key !in ConfigKeys(cfg.Keys) ==> dumped[key] == clientConfig[key])
    {
      var nav := NavigationOrDefault(navigationType);
      var effective := EffectiveConfig(config, navigationType);
      if effective.Err? {
        return Err(effective.error);
      }
      var cfg := effective.value;
      var town := TownValue(cfg);
      if town.Err? {
        return Err(town.error);
      }
      var c := new DataCollector(writePath, navigationType, settings);
      c.trace := c.trace + [ReadRoutes(town.value, nav)];
      var routes := c.ConstructRoutePoints(routeRows);
      if routes.Err? {
        return Err(routes.error);
      }
      c.trace := c.trace + [CreateDirectory(c.writePath)];
      var saved := SaveConfiguration(cfg, clientConfig, c.writePath);
      if saved.Err? {
        return Err(saved.error);
      }
      c.trace := c.trace + [DumpConfiguration(saved.value.path, saved.value.content)];
      r := Ok(c);
    }

    /// `construct_route_points`: consecutive rows paired up; an odd row
    /// count raises IndexError after the complete pairs were appended.
    method ConstructRoutePoints(rows: seq<Row>) returns (r: Result<(), Exception>)
      modifies this`routePoints
      ensures routePoints == Pairs(rows)
      ensures r == if |rows| % 2 == 0 then Ok(()) else Err(IndexError)
    {
      routePoints := [];
      var i := 0;
      while i < |rows|
        invariant i % 2 == 0 && 0 <= i <= |rows|
        invariant routePoints == Pairs(rows[..i])
        decreases |rows| - i
      {
        if i + 1 >= |rows| {
          assert Pairs(rows[..i]) == Pairs(rows);
          return Err(IndexError);
        }
        assert Pairs(rows[..i + 2]) == Pairs(rows[..i]) + [(rows[i], rows[i + 1])];
        routePoints := routePoints + [(rows[i], rows[i + 1])];
        i := i + 2;
      }
      assert rows[..i] == rows;
      r := Ok(());
    }

    /// `write_loop(file_name, single_scenario)`: the tar file is created
    /// once, before the first step.
    method WriteLoop(fileName: string, singleScenario: bool, world: nat -> StepAnswer)
      returns (r: Result<(), Exception>)
      modifies this`trace
      ensures r == if LoopFails(steps, dataWriteFreq) then Err(ZeroDivisionError) else Ok(())
      ensures trace == old(trace) + [CreateTar(fileName, writePath)]
                       + LoopCalls(steps, Observations(singleScenario, world), dataWriteFreq)
    {
      trace := trace + [CreateTar(fileName, writePath)];
      if dataWriteFreq == 0 {
        // the first step's `i % 0` raises, after its data was collected
        if steps > 0 {
          var calls, _, _ := Step(0, singleScenario, world(0));
          trace := trace + calls;
          return Err(ZeroDivisionError);
        }
        return Ok(());
      }
      var calls := StepLoop(singleScenario, world);
      trace := trace + calls;
      r := Ok(());
    }

    /// The counted loop of `write_loop`: at most `steps` steps, ending
    /// early in single-scenario mode; `calls` is what it logs.
    method StepLoop(singleScenario: bool, world: nat -> StepAnswer) returns (calls: seq<Call>)
      requires dataWriteFreq != 0
      ensures calls == LoopTrace(Executed(steps, Observations(singleScenario, world)),
                                 Observations(singleScenario, world), dataWriteFreq)
    {
      ghost var obs := Observations(singleScenario, world);
      calls := [];
      var i: nat := 0;
      var stopped := false;
      while i < steps && !stopped
        invariant calls == LoopTrace(i, obs, dataWriteFreq)
        invariant Executed(steps, obs) == if stopped then i else RunFrom(i, steps, obs)
      {
        var stepCalls, failed;
        stepCalls, stopped, failed := Step(i, singleScenario, world(i));
        assert obs(i) == Observe(singleScenario, world(i));
        assert LoopTrace(i + 1, obs, dataWriteFreq) == calls + stepCalls;
        calls := calls + stepCalls;
        i := i + 1;
      }
      assert Executed(steps, obs) == i;
    }

    /// One pass of the `write_loop` body: collect, write on a multiple of
    /// the frequency, re-set the agent on a collision or a finished route,
    /// and decide whether a single-scenario run ends here. `i % 0` fails
    /// right after the data was collected. `setup_agent()` without a
    /// behavior keeps the current one, so the re-setup is only logged.
    method Step(i: nat, singleScenario: bool, answer: StepAnswer) returns (calls: seq<Call>, stopped: bool, failed: bool)
      ensures failed <==> dataWriteFreq == 0
      ensures failed ==> calls == [CollectData(i)]
      ensures !failed ==> calls == StepCalls(i, Observe(singleScenario, answer), dataWriteFreq)
      ensures !failed ==> stopped == Stops(singleScenario, answer)
    {
      var data := agentManager.CollectData(answer.data, preProcess);
      calls := [CollectData(i)];
      if dataWriteFreq == 0 {
        return calls, false, true;
      }
      failed := false;
      var write: seq<Call> := [];
      if i % dataWriteFreq == 0 {
        write := [Write(data, i)];
      }
      var reset := Truthy(data["collision"]) || answer.done;
      var setup: seq<Call> := [];
      if reset {
        setup := [SetupAgent(None)];
      }
      calls := calls + write + setup;
      stopped := singleScenario && (if reset then answer.freshDone else answer.done);
    }

    /// One pass of the `collect` loop: set the weather, set the agent up
    /// with the job's behavior and run `write_loop` on the file named after
    /// the town, weather and behavior.
    method RunJob(job: (string, string), singleScenario: bool, world: nat -> StepAnswer)
      returns (r: Result<(), Exception>)
      modifies this`trace, agentManager`behavior
      ensures r == if LoopFails(steps, dataWriteFreq) then Err(ZeroDivisionError) else Ok(())
      ensures trace == old(trace) + JobCalls(town, writePath, job, steps, Observations(singleScenario, world), dataWriteFreq)
      ensures agentManager.behavior == job.1
    {
      var (weather, behavior) := job;
      ghost var before := trace;
      var _ := agentManager.SetupAgent(Some(behavior));
      var setup := [SetWeather(weather), SetupAgent(Some(behavior))];
      trace := trace + setup;
      var fileName := FileName(town, weather, behavior);
      r := WriteLoop(fileName, singleScenario, world);
      AppendAssociates4(before, setup, [CreateTar(fileName, writePath)],
                        LoopCalls(steps, Observations(singleScenario, world), dataWriteFreq));
    }

    /// `collect(single_scenario)`: one job per weather-behavior pair, in
    /// product order, then the writer is closed. A failing step loop
    /// propagates and the writer stays open.
    method Collect(singleScenario: bool, worlds: nat -> nat -> StepAnswer) returns (r: Result<(), Exception>)
      modifies this`trace, agentManager`behavior
      ensures var jobs := Product(weathers, behaviors);
              !LoopFails(steps, dataWriteFreq) || jobs == [] ==>
                r == Ok(()) &&
                trace == old(trace) + JobsTrace(|jobs|, town, writePath, jobs, steps, worlds, singleScenario, dataWriteFreq)
                         + [CloseWriter]
      ensures var jobs := Product(weathers, behaviors);
              LoopFails(steps, dataWriteFreq) && jobs != [] ==>
                r == Err(ZeroDivisionError) &&
                trace == old(trace) + JobsTrace(1, town, writePath, jobs, steps, worlds, singleScenario, dataWriteFreq)
      ensures var jobs := Product(weathers, behaviors);
              r.Ok? && jobs != [] ==> agentManager.behavior == jobs[|jobs| - 1].1
    {
      var combinations := Product(weathers, behaviors);
      ghost var start := trace;
      for k := 0 to |combinations|
        invariant trace == start + JobsTrace(k, town, writePath, combinations, steps, worlds, singleScenario, dataWriteFreq)
        invariant k > 0 ==> !LoopFails(steps, dataWriteFreq)
        invariant k > 0 ==> agentManager.behavior == combinations[k - 1].1
      {
        ghost var before := JobsTrace(k, town, writePath, combinations, steps, worlds, singleScenario, dataWriteFreq);
        var result := RunJob(combinations[k], singleScenario, worlds(k));
        AppendAssociates(start, before, JobCalls(town, writePath, combinations[k], steps,
                                                 Observations(singleScenario, worlds(k)), dataWriteFreq));
        if result.Err? {
          assert k == 0;
          return result;
        }
      }
      trace := trace + [CloseWriter];
      r := Ok(());
    }
  }
}
