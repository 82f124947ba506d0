/// modules/data_collector.py, pure part: paths and file names, the job
/// enumeration, route-point pairing, the per-step record and the calls the
/// step loop makes, as functions of the simulator's answers.
module CollectorSpec {
  import opened Common
  import PreProcess

  // ---------------------------------------------------------------------
  // Paths and names
  // ---------------------------------------------------------------------

  /// `navigation_type`, defaulting to `'straight'`.
  function NavigationOrDefault(navigationType: Option<string>): string
  {
    if navigationType.None? then "straight" else navigationType.value
  }

  /// `write_path + '/' + navigation_type + '/'`.
  function WritePath(writePath: string, navigationType: Option<string>): string
  {
    writePath + "/" + NavigationOrDefault(navigationType) + "/"
  }

  /// The step budget: `'navigation'` forces 300000 steps.
  function ConfiguredSteps(navigationType: Option<string>, steps: int): (n: int)
    ensures NavigationOrDefault(navigationType) == "navigation" ==> n == 300000
    ensures NavigationOrDefault(navigationType) != "navigation" ==> n == steps
  {
    if NavigationOrDefault(navigationType) == "navigation" then 300000 else steps
  }

  /// `'_'.join([town, weather, behavior])`.
  function FileName(town: string, weather: string, behavior: string): string
  {
    town + "_" + weather + "_" + behavior
  }

  /// Two navigation types share a directory only when they are the same.
  lemma WritePathInjective(writePath: string, n1: Option<string>, n2: Option<string>)
    ensures WritePath(writePath, n1) == WritePath(writePath, n2) <==>
            NavigationOrDefault(n1) == NavigationOrDefault(n2)
  {
    if WritePath(writePath, n1) == WritePath(writePath, n2) {
      CancelAround(writePath + "/", NavigationOrDefault(n1), NavigationOrDefault(n2), "/");
    }
  }

  lemma SeparatorAt(w: string, b: string)
    ensures (w + "_" + b)[|w|] == '_'
    ensures forall i :: 0 <= i < |w| ==> (w + "_" + b)[i] == w[i]
  {
  }

  /// With underscore-free weather names, a file name determines its
  /// weather and behavior.
  lemma FileNameInjective(town: string, w1: string, b1: string, w2: string, b2: string)
    requires '_' !in w1 && '_' !in w2
    requires FileName(town, w1, b1) == FileName(town, w2, b2)
    ensures w1 == w2 && b1 == b2
  {
    var s1 := w1 + "_" + b1;
    var s2 := w2 + "_" + b2;
    assert (town + "_") + s1 + "" == FileName(town, w1, b1);
    assert (town + "_") + s2 + "" == FileName(town, w2, b2);
    CancelAround(town + "_", s1, s2, "");
    assert s1 == s2;
    SeparatorAt(w1, b1);
    SeparatorAt(w2, b2);
    if |w1| < |w2| {
      assert false;
    } else if |w2| < |w1| {
      assert false;
    }
    assert w1 == s1[..|w1|] && w2 == s2[..|w2|];
    assert b1 == s1[|w1| + 1..] && b2 == s2[|w2| + 1..];
  }

  // ---------------------------------------------------------------------
  // Job enumeration: itertools.product
  // ---------------------------------------------------------------------

  function Product<A, B>(xs: seq<A>, ys: seq<B>): (p: seq<(A, B)>)
    ensures |p| == |xs| * |ys|
  {
    if xs == [] then []
    else seq(|ys|, j requires 0 <= j < |ys| => (xs[0], ys[j])) + Product(xs[1..], ys)
  }

  /// Pair `(xs[i], ys[j])` sits at position `i * |ys| + j`: product order.
  lemma {:induction false} ProductIndex<A, B>(xs: seq<A>, ys: seq<B>, i: nat, j: nat)
    requires i < |xs| && j < |ys|
    ensures i * |ys| + j < |Product(xs, ys)|
    ensures Product(xs, ys)[i * |ys| + j] == (xs[i], ys[j])
  {
    if i > 0 {
      ProductIndex(xs[1..], ys, i - 1, j);
      assert i * |ys| + j == |ys| + ((i - 1) * |ys| + j);
    }
  }

  /// Every pair of the product appears, and nothing else.
  lemma {:induction false} ProductMembers<A, B>(xs: seq<A>, ys: seq<B>, x: A, y: B)
    ensures (x, y) in Product(xs, ys) <==> x in xs && y in ys
  {
    if xs != [] {
      ProductMembers(xs[1..], ys, x, y);
      if x in xs && y in ys && x != xs[0] {
        assert x in xs[1..] by {
          var i :| 0 <= i < |xs| && xs[i] == x;
          assert xs[1..][i - 1] == x;
        }
      }
      if x in xs && y in ys && x == xs[0] {
        var j :| 0 <= j < |ys| && ys[j] == y;
        assert Product(xs, ys)[j] == (x, y);
      }
    }
  }

  /// With duplicate-free factors, no pair is visited twice.
  lemma {:induction false} ProductDistinct<A, B>(xs: seq<A>, ys: seq<B>)
    requires forall m, n :: 0 <= m < n < |xs| ==> xs[m] != xs[n]
    requires forall m, n :: 0 <= m < n < |ys| ==> ys[m] != ys[n]
    ensures forall p, q :: 0 <= p < q < |Product(xs, ys)| ==> Product(xs, ys)[p] != Product(xs, ys)[q]
  {
    if xs != [] {
      var block := seq(|ys|, j requires 0 <= j < |ys| => (xs[0], ys[j]));
      var rest := Product(xs[1..], ys);
      ProductDistinct(xs[1..], ys);
      forall q | 0 <= q < |rest|
        ensures rest[q].0 != xs[0]
      {
        ProductMembers(xs[1..], ys, rest[q].0, rest[q].1);
        var k :| 0 <= k < |xs| - 1 && xs[1..][k] == rest[q].0;
        assert xs[k + 1] == rest[q].0;
      }
      assert Product(xs, ys) == block + rest;
    }
  }

  /// The three-way product of the parallel collector, in the same order.
  function Product3<A, B, C>(xs: seq<A>, ys: seq<B>, zs: seq<C>): (p: seq<(A, B, C)>)
    ensures |p| == |xs| * |ys| * |zs|
  {
    var pp := Product(Product(xs, ys), zs);
    seq(|pp|, k requires 0 <= k < |pp| => (pp[k].0.0, pp[k].0.1, pp[k].1))
  }

  lemma Product3Index<A, B, C>(xs: seq<A>, ys: seq<B>, zs: seq<C>, i: nat, j: nat, l: nat)
    requires i < |xs| && j < |ys| && l < |zs|
    ensures (i * |ys| + j) * |zs| + l < |Product3(xs, ys, zs)|
    ensures Product3(xs, ys, zs)[(i * |ys| + j) * |zs| + l] == (xs[i], ys[j], zs[l])
  {
    ProductIndex(xs, ys, i, j);
    ProductIndex(Product(xs, ys), zs, i * |ys| + j, l);
  }

  // ---------------------------------------------------------------------
  // Route points
  // ---------------------------------------------------------------------

  /// One row of the route file.
  type Row = seq<Value>

  /// `[[data[0], data[1]], [data[2], data[3]], ...]`, complete pairs only.
  function Pairs(rows: seq<Row>): (ps: seq<(Row, Row)>)
    ensures |ps| == |rows| / 2
  {
    seq(|rows| / 2, k requires 0 <= k < |rows| / 2 => (rows[2 * k], rows[2 * k + 1]))
  }

  function Unpair(ps: seq<(Row, Row)>): (rows: seq<Row>)
    ensures |rows| == 2 * |ps|
  {
    if ps == [] then [] else Unpair(ps[..|ps| - 1]) + [ps[|ps| - 1].0, ps[|ps| - 1].1]
  }

  lemma {:induction false} UnpairIndex(ps: seq<(Row, Row)>, k: nat)
    requires k < |ps|
    ensures Unpair(ps)[2 * k] == ps[k].0 && Unpair(ps)[2 * k + 1] == ps[k].1
  {
    if k < |ps| - 1 {
      UnpairIndex(ps[..|ps| - 1], k);
    }
  }

  /// An even-length route file is exactly its pairs, flattened back.
  lemma PairsRoundTrip(rows: seq<Row>)
    requires |rows| % 2 == 0
    ensures Unpair(Pairs(rows)) == rows
  {
    var ps := Pairs(rows);
    forall i | 0 <= i < |rows|
      ensures Unpair(ps)[i] == rows[i]
    {
      UnpairIndex(ps, i / 2);
    }
  }

  /// Pairing the flattened rows gives the pairs back.
  lemma UnpairRoundTrip(ps: seq<(Row, Row)>)
    ensures Pairs(Unpair(ps)) == ps
  {
    forall k | 0 <= k < |ps|
      ensures Pairs(Unpair(ps))[k] == ps[k]
    {
      UnpairIndex(ps, k);
    }
  }

  // ---------------------------------------------------------------------
  // save_configuration
  // ---------------------------------------------------------------------

  function ConfigKey(key: string): string
  {
    key + "_config"
  }

  lemma ConfigKeyInjective(a: string, b: string)
    ensures ConfigKey(a) == ConfigKey(b) <==> a == b
  {
    if ConfigKey(a) == ConfigKey(b) {
      assert "" + a + "_config" == ConfigKey(a) && "" + b + "_config" == ConfigKey(b);
      CancelAround("", a, b, "_config");
    }
  }

  /// The keys `save_configuration` adds.
  function ConfigKeys(keys: set<string>): set<string>
  {
    set key | key in keys && key != "experiment" :: ConfigKey(key)
  }

  /// `config['experiment']['town']`: KeyError for a missing key at either
  /// level, TypeError when `experiment` cannot be indexed by a string.
  function TownValue(config: map<string, Value>): (r: Result<Value, Exception>)
    ensures r.Ok? <==> "experiment" in config && config["experiment"].Dict? && "town" in config["experiment"].entries
    ensures r.Ok? ==> r.value == config["experiment"].entries["town"]
    ensures "experiment" !in config ==> r == Err(KeyError("experiment"))
    ensures "experiment" in config && !config["experiment"].Dict? ==> r == Err(TypeError)
    ensures "experiment" in config && config["experiment"].Dict? && "town" !in config["experiment"].entries ==>
              r == Err(KeyError("town"))
  {
    if "experiment" !in config then Err(KeyError("experiment"))
    else if !config["experiment"].Dict? then Err(TypeError)
    else if "town" !in config["experiment"].entries then Err(KeyError("town"))
    else Ok(config["experiment"].entries["town"])
  }

  /// `config['experiment']['town']` used as a string: concatenating a
  /// non-string town to the write path raises TypeError.
  function TownOf(config: map<string, Value>): (r: Result<string, Exception>)
    ensures r.Ok? <==> TownValue(config).Ok? && TownValue(config).value.Str?
    ensures r.Ok? ==> r.value == TownValue(config).value.s
    ensures TownValue(config).Err? ==> r == Err(TownValue(config).error)
    ensures TownValue(config).Ok? && !TownValue(config).value.Str? ==> r == Err(TypeError)
  {
    match TownValue(config)
    case Err(e) => Err(e)
    case Ok(v) => if v.Str? then Ok(v.s) else Err(TypeError)
  }

  /// `cfg['collector']['steps'] = 300000` on the configuration dict.
  function OverrideSteps(config: map<string, Value>): (r: Result<map<string, Value>, Exception>)
    ensures "collector" !in config ==> r == Err(KeyError("collector"))
    ensures r.Ok? <==> "collector" in config && config["collector"].Dict?
    ensures r.Ok? ==> r.value.Keys == config.Keys && r.value["collector"].Dict? &&
                      r.value["collector"].entries.Keys == config["collector"].entries.Keys + {"steps"} &&
                      r.value["collector"].entries["steps"] == Int(300000)
    ensures r.Ok? ==> forall k :: k in config && k != "collector" ==> r.value[k] == config[k]
    ensures r.Ok? ==> forall k :: k in config["collector"].entries && k != "steps" ==>
                        r.value["collector"].entries[k] == config["collector"].entries[k]
    ensures "collector" in config && !config["collector"].Dict? ==> r == Err(TypeError)
  {
    if "collector" !in config then Err(KeyError("collector"))
    else if !config["collector"].Dict? then Err(TypeError)
    else Ok(config["collector" := Dict(config["collector"].entries["steps" := Int(300000)])])
  }

  /// The configuration the collector works with: with navigation type
  /// `'navigation'` the steps override is applied first.
  function EffectiveConfig(config: map<string, Value>, navigationType: Option<string>)
    : (r: Result<map<string, Value>, Exception>)
    ensures NavigationOrDefault(navigationType) != "navigation" ==> r == Ok(config)
    ensures NavigationOrDefault(navigationType) == "navigation" ==> r == OverrideSteps(config)
  {
    if NavigationOrDefault(navigationType) == "navigation" then OverrideSteps(config) else Ok(config)
  }

  // ---------------------------------------------------------------------
  // Step records
  // ---------------------------------------------------------------------

  /// What the agent and the server hand back for one step.
  datatype StepData = StepData(sensor: map<string, Value>, waypoint: map<string, Value>,
                               traffic: map<string, Value>, vehicle: map<string, Value>,
                               collision: map<string, Value>)

  /// `collect_data` without a preprocessor: sensor, waypoint, traffic,
  /// vehicle and collision, the later dict winning on a shared key.
  function PlainRecord(d: StepData): (r: map<string, Value>)
    ensures r.Keys == d.sensor.Keys + d.waypoint.Keys + d.traffic.Keys + d.vehicle.Keys + d.collision.Keys
    ensures forall k | k in r :: r[k] == (
              if k in d.collision then d.collision[k]
              else if k in d.vehicle then d.vehicle[k]
              else if k in d.traffic then d.traffic[k]
              else if k in d.waypoint then d.waypoint[k]
              else d.sensor[k])
  {
    d.sensor + d.waypoint + d.traffic + d.vehicle + d.collision
  }

  /// `collect_data` with the collector's preprocessor: the event flags,
  /// then the six-way merge with the default `other_data`.
  function ProcessedRecord(d: StepData): (r: map<string, Value>)
    ensures "collision" in r
  {
    PreProcess.WithEventFlags(d.sensor) + d.waypoint + d.traffic + d.vehicle + d.collision + PreProcess.DefaultOther
  }

  /// The record is the preprocessor's `process` result.
  lemma ProcessedRecordIsStepRecord(d: StepData)
    ensures ProcessedRecord(d) == PreProcess.StepRecord(PreProcess.WithEventFlags(d.sensor), d.waypoint, d.traffic,
                                                        d.vehicle, d.collision, PreProcess.DefaultOther)
  {
  }

  // ---------------------------------------------------------------------
  // The step loop
  // ---------------------------------------------------------------------

  /// The simulator's answers for step `i`: the data, whether the agent is
  /// done, and whether a freshly set-up agent would report done.
  datatype StepAnswer = StepAnswer(data: StepData, done: bool, freshDone: bool)

  /// Calls to the writer, the agent and the filesystem, in order.
  datatype Call =
    | CreateDirectory(dir: string)
    /// Reading `routes/corl2017/{town}_{navigation_type}.xml`.
    | ReadRoutes(town: Value, navigationType: string)
    | DumpConfiguration(path: string, content: map<string, Value>)
    | SetWeather(weather: string)
    | SetupAgent(behavior: Option<string>)
    | CreateTar(fileName: string, dir: string)
    | CollectData(step: nat)
    | Write(record: map<string, Value>, step: nat)
    | CloseWriter

  /// A collision in the record or a finished route re-sets the agent.
  predicate Resets(a: StepAnswer)
  {
    Truthy(ProcessedRecord(a.data)["collision"]) || a.done
  }

  /// In single-scenario mode the loop ends when the agent (the fresh one
  /// after a re-setup) is done.
  predicate Stops(singleScenario: bool, a: StepAnswer)
  {
    singleScenario && (if Resets(a) then a.freshDone else a.done)
  }

  /// What the loop makes of one step: the record, whether it re-sets the
  /// agent and whether it ends the loop.
  datatype Observed = Observed(record: map<string, Value>, resets: bool, stops: bool)

  function Observe(singleScenario: bool, a: StepAnswer): Observed
  {
    Observed(ProcessedRecord(a.data), Resets(a), Stops(singleScenario, a))
  }

  /// The observations of every step.
  function Observations(singleScenario: bool, world: nat -> StepAnswer): nat -> Observed
  {
    (i: nat) => Observe(singleScenario, world(i))
  }

  /// The calls of step `i`.
  function StepCalls(i: nat, o: Observed, freq: int): seq<Call>
    requires freq != 0
  {
    [CollectData(i)]
    + (if i % freq == 0 then [Write(o.record, i)] else [])
    + (if o.resets then [SetupAgent(None)] else [])
  }

  /// The calls of steps `0 .. n-1`.
  function LoopTrace(n: nat, obs: nat -> Observed, freq: int): seq<Call>
    requires freq != 0
  {
    if n == 0 then [] else LoopTrace(n - 1, obs, freq) + StepCalls(n - 1, obs(n - 1), freq)
  }

  /// How many steps run, counting from step `i`.
  function RunFrom(i: nat, steps: int, obs: nat -> Observed): nat
    decreases steps - i
  {
    if steps <= i then i
    else if obs(i).stops then i + 1
    else RunFrom(i + 1, steps, obs)
  }

  /// How many steps `write_loop` runs.
  function Executed(steps: int, obs: nat -> Observed): nat
  {
    RunFrom(0, steps, obs)
  }

  /// The calls `write_loop` makes after creating the tar file; with a zero
  /// write frequency the first step raises ZeroDivisionError.
  function LoopCalls(steps: int, obs: nat -> Observed, freq: int): seq<Call>
  {
    if freq == 0 then (if steps > 0 then [CollectData(0)] else [])
    else LoopTrace(Executed(steps, obs), obs, freq)
  }

  predicate LoopFails(steps: int, freq: int)
  {
    freq == 0 && steps > 0
  }

  // ---------------------------------------------------------------------
  // What the step loop promises
  // ---------------------------------------------------------------------

  lemma {:induction false} LoopTracePrefix(m: nat, n: nat, obs: nat -> Observed, freq: int)
    requires freq != 0 && m <= n
    ensures LoopTrace(m, obs, freq) <= LoopTrace(n, obs, freq)
    decreases n
  {
    if m < n {
      LoopTracePrefix(m, n - 1, obs, freq);
    }
  }

  /// Step `i` writes its record exactly when `i` is a multiple of the
  /// write frequency, and no other record is written under index `i`.
  lemma {:induction false} WriteSchedule(n: nat, obs: nat -> Observed, freq: int,
                                         record: map<string, Value>, i: nat)
    requires freq != 0
    ensures Write(record, i) in LoopTrace(n, obs, freq) <==>
            i < n && i % freq == 0 && record == obs(i).record
  {
    if n > 0 {
      WriteSchedule(n - 1, obs, freq, record, i);
      var last := StepCalls(n - 1, obs(n - 1), freq);
      assert Write(record, i) in last <==>
             i == n - 1 && i % freq == 0 && record == obs(i).record;
    }
  }

  /// The loop never creates a tar file, sets the weather or closes the
  /// writer: those happen once per job, around it.
  lemma {:induction false} LoopTraceCalls(n: nat, obs: nat -> Observed, freq: int)
    requires freq != 0
    ensures forall c :: c in LoopTrace(n, obs, freq) ==>
              c.CollectData? || c.Write? || c == SetupAgent(None)
  {
    if n > 0 {
      LoopTraceCalls(n - 1, obs, freq);
    }
  }

  /// Where step `i`'s calls begin.
  function StartOf(i: nat, obs: nat -> Observed, freq: int): nat
    requires freq != 0
  {
    |LoopTrace(i, obs, freq)|
  }

  /// Each step begins by collecting data, and the call just before step
  /// `i + 1` is a re-setup exactly when step `i` saw a collision or a
  /// finished route.
  lemma SetupBeforeNextStep(n: nat, obs: nat -> Observed, freq: int, i: nat)
    requires freq != 0 && i + 1 < n
    ensures var t := LoopTrace(n, obs, freq);
            var p := StartOf(i + 1, obs, freq);
            0 < p < |t| && t[p] == CollectData(i + 1) &&
            (t[p - 1] == SetupAgent(None) <==> obs(i).resets)
  {
    LoopTracePrefix(i + 2, n, obs, freq);
    var before := LoopTrace(i + 1, obs, freq);
    var t2 := LoopTrace(i + 2, obs, freq);
    assert t2 == before + StepCalls(i + 1, obs(i + 1), freq);
    assert before == LoopTrace(i, obs, freq) + StepCalls(i, obs(i), freq);
    assert t2[|before|] == CollectData(i + 1);
    assert t2[|before| - 1] == before[|before| - 1];
  }

  /// In single-scenario mode the loop stops after the first step whose
  /// agent (the re-set one, after a collision or a finished route) is
  /// done, and only then; it runs no step when the budget is not positive.
  lemma SingleScenarioExit(steps: int, obs: nat -> Observed)
    ensures var n := Executed(steps, obs);
            (forall m :: 0 <= m < n - 1 ==> !obs(m).stops) &&
            (0 < n < steps ==> obs(n - 1).stops) &&
            (n == 0 <==> steps <= 0) &&
            n <= (if steps > 0 then steps else 0)
  {
    RunFromBounds(0, steps, obs);
  }

  lemma {:induction false} RunFromBounds(i: nat, steps: int, obs: nat -> Observed)
    ensures var n := RunFrom(i, steps, obs);
            i <= n && (i < steps ==> i < n <= steps) &&
            (forall m :: i <= m < n - 1 ==> !obs(m).stops) &&
            (n < steps && i < n ==> obs(n - 1).stops)
    decreases steps - i
  {
    if i < steps && !obs(i).stops {
      RunFromBounds(i + 1, steps, obs);
    }
  }

  /// Outside single-scenario mode every step of the budget runs.
  lemma AllStepsRun(steps: int, world: nat -> StepAnswer)
    ensures Executed(steps, Observations(false, world)) == if steps > 0 then steps else 0
  {
    var obs := Observations(false, world);
    assert forall m: nat :: obs(m).stops == Stops(false, world(m));
    NeverStops(0, steps, obs);
  }

  lemma {:induction false} NeverStops(i: nat, steps: int, obs: nat -> Observed)
    requires forall m :: obs(m).stops == false
    ensures RunFrom(i, steps, obs) == if i < steps then steps else i
    decreases steps - i
  {
    if i < steps {
      NeverStops(i + 1, steps, obs);
    }
  }
}
