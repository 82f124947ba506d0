/// data_writer.py: the tar-shard writer's naming and record shaping.
/// The tar sink and the JSON encoder are external: the sink is the sequence
/// of samples handed to it, and "is JSON-serialisable" is a predicate given
/// to the writer when it is built.
module ArchiveWriter {
  import opened Common
  import opened Decimal
  import Utils

  /// `"sample%06d" % index`.
  function SampleKey(index: nat): (k: string)
    ensures |k| == 6 + (if |NatToString(index)| < 6 then 6 else |NatToString(index)|)
    ensures k[..6] == "sample"
    ensures AllDigits(k[6..]) && DigitsValue(k[6..]) == index
  {
    Format0dRoundTrip(index, 6);
    var k := "sample" + Format0d(index, 6);
    assert k[6..] == Format0d(index, 6);
    k
  }

  /// Distinct indices get distinct keys.
  lemma SampleKeyInjective(i: nat, j: nat)
    requires SampleKey(i) == SampleKey(j)
    ensures i == j
  {
    assert SampleKey(i)[6..] == SampleKey(j)[6..];
  }

  /// `s.split('.')[0]`: the text before the first '.', or all of `s`.
  function UpToFirstDot(s: string): (r: string)
    ensures |r| <= |s| && r == s[..|r|]
    ensures '.' !in r
    ensures |r| < |s| ==> s[|r|] == '.'
  {
    if s == [] || s[0] == '.' then [] else [s[0]] + UpToFirstDot(s[1..])
  }

  /// The manifest path written next to the tar file.
  function ConfigPath(tarPath: string): string
  {
    UpToFirstDot(tarPath) + "_configuration.json"
  }

  /// A directory with a '.' in its name cuts the manifest path short: the
  /// manifest lands at the part of the directory before the dot.
  lemma ConfigPathIgnoresNameAfterDot(dir: string, name: string)
    requires '.' in dir
    ensures ConfigPath(dir + name) == ConfigPath(dir)
  {
    var k :| 0 <= k < |dir| && dir[k] == '.';
    PrefixBeforeDot(dir + name, dir, k);
  }

  lemma {:induction false} PrefixBeforeDot(s: string, t: string, k: nat)
    requires k < |t| <= |s| && t == s[..|t|] && t[k] == '.'
    ensures UpToFirstDot(s) == UpToFirstDot(t)
    decreases k
  {
    if s[0] != '.' {
      PrefixBeforeDot(s[1..], t[1..], k - 1);
    }
  }

  /// The entries of `m` whose values the JSON encoder accepts, unchanged.
  function Serializable(m: map<string, Value>, jsonable: Value -> bool): (r: map<string, Value>)
    ensures r.Keys == set k | k in m && jsonable(m[k])
    ensures forall k :: k in r ==> r[k] == m[k]
  {
    map k | k in m && jsonable(m[k]) :: m[k]
  }

  /// One record as handed to the tar sink.
  datatype TarSample = TarSample(key: string, jpeg: Value, json: map<string, Value>)

  /// `sample(data, index)` on the dict's contents: the `rgb` entry becomes
  /// the image payload and the serialisable rest the JSON payload; a record
  /// without `rgb` raises `KeyError('rgb')`.
  function ShapeSample(m: map<string, Value>, index: nat, jsonable: Value -> bool)
    : (r: Result<TarSample, Exception>)
    ensures "rgb" !in m <==> r == Err(KeyError("rgb"))
    ensures r.Ok? <==> "rgb" in m
    ensures r.Ok? ==>
      && r.value.key == SampleKey(index)
      && r.value.jpeg == m["rgb"]
      && "rgb" !in r.value.json
      && (forall k :: k in r.value.json ==> k in m && r.value.json[k] == m[k] && jsonable(m[k]))
      && (forall k :: k in m && k != "rgb" && jsonable(m[k]) ==> k in r.value.json)
  {
    if "rgb" !in m then Err(KeyError("rgb"))
    else Ok(TarSample(SampleKey(index), m["rgb"], Serializable(m - {"rgb"}, jsonable)))
  }

  class WebWriter {
    /// The tar file this writer was opened on.
    var tarPath: string
    /// Where the job configuration was dumped, and what was dumped.
    var configPath: string
    var manifest: map<string, Value>
    /// The samples handed to the tar sink, in order.
    var written: seq<TarSample>
    /// The JSON encoder's verdict on a value (`_is_jsonable`).
    const jsonable: Value -> bool

    /// `WebWriter(config, file_name, write_path)`: opens the first free
    /// variant of `write_path + file_name + '.tar'` and writes the manifest.
    constructor (config: map<string, Value>, fileName: string, writePath: string,
                 existing: set<string>, jsonable: Value -> bool)
      ensures tarPath !in existing
      ensures writePath + fileName + ".tar" !in existing ==> tarPath == writePath + fileName + ".tar"
      ensures writePath + fileName + ".tar" in existing ==>
        exists i: nat :: i >= 1 && tarPath == Utils.Renamed(writePath + fileName + ".tar", i) &&
          forall j: nat :: 1 <= j < i ==> Utils.Renamed(writePath + fileName + ".tar", j) in existing
      ensures configPath == ConfigPath(tarPath) && manifest == config
      ensures written == [] && this.jsonable == jsonable
    {
      var path := Utils.GetNonexistentPath(writePath + fileName + ".tar", existing);
      tarPath := path;
      configPath := ConfigPath(path);
      manifest := config;
      written := [];
      this.jsonable := jsonable;
    }

    /// `_get_serializable_data`: deletes, in the caller's dict, every entry
    /// whose value is not serialisable, and returns that same dict.
    method GetSerializableData(data: Dict) returns (r: Dict)
      modifies data
      ensures r == data
      ensures data.entries == Serializable(old(data.entries), jsonable)
    {
      var keysToDelete: set<string> := {};
      var unvisited := data.entries.Keys;
      while unvisited != {}
        invariant unvisited <= data.entries.Keys
        invariant data.entries == old(data.entries)
        invariant keysToDelete == set k | k in data.entries && k !in unvisited && !jsonable(data.entries[k])
        decreases unvisited
      {
        var key :| key in unvisited;
        if !jsonable(data.entries[key]) {
          keysToDelete := keysToDelete + {key};
        }
        unvisited := unvisited - {key};
      }
      var pending := keysToDelete;
      while pending != {}
        invariant pending <= keysToDelete
        invariant data.entries == old(data.entries) - (keysToDelete - pending)
        decreases pending
      {
        var key :| key in pending;
        data.entries := data.entries - {key};
        pending := pending - {key};
      }
      r := data;
    }

    /// `sample(data, index)`: removes `rgb` and the unserialisable entries
    /// from the caller's dict; the JSON payload is what remains.
    method Sample(data: Dict, index: nat) returns (r: Result<TarSample, Exception>)
      modifies data
      ensures r == ShapeSample(old(data.entries), index, jsonable)
      ensures r.Err? ==> data.entries == old(data.entries)
      ensures r.Ok? ==> data.entries == r.value.json
    {
      if "rgb" !in data.entries {
        return Err(KeyError("rgb"));
      }
      var image := data.entries["rgb"];
      data.entries := data.entries - {"rgb"};
      var remaining := GetSerializableData(data);
      r := Ok(TarSample(SampleKey(index), image, remaining.entries));
    }

    /// `write(data, index)`: shapes the record and hands it to the sink.
    method Write(data: Dict, index: nat) returns (r: Result<(), Exception>)
      modifies this`written, data
      ensures var shaped := ShapeSample(old(data.entries), index, jsonable);
        && (shaped.Ok? ==> r == Ok(()) && written == old(written) + [shaped.value])
        && (shaped.Err? ==> r == Err(shaped.error) && written == old(written))
        && (shaped.Ok? ==> data.entries == shaped.value.json)
        && (shaped.Err? ==> data.entries == old(data.entries))
    {
      var s := Sample(data, index);
      match s
      case Err(e) =>
        r := Err(e);
      case Ok(sample) =>
        written := written + [sample];
        r := Ok(());
    }
  }
}
