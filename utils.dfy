/// utils.py: collision-free file naming, the shard-index search, the
/// semantic-label palette and the `skip_run` block switch.
module Utils {
  import opened Common
  import opened Decimal

  // ---------------------------------------------------------------------
  // os.path.splitext (POSIX)
  // ---------------------------------------------------------------------

  /// Index of the last occurrence of `c` in `s`, or -1.
  function LastIndexOf(s: string, c: char): (r: int)
    ensures -1 <= r < |s|
    ensures r >= 0 ==> s[r] == c
    ensures forall j :: r < j < |s| ==> s[j] != c
  {
    if s == [] then -1
    else if s[|s| - 1] == c then |s| - 1
    else LastIndexOf(s[..|s| - 1], c)
  }

  /// `os.path.splitext(p)`: the extension starts at the last '.', provided
  /// that dot lies in the last path component and that component has a
  /// character other than '.' before it (so ".bashrc" has no extension).
  function SplitExt(p: string): (r: (string, string))
    ensures r.0 + r.1 == p
    ensures r.1 == [] || (r.1[0] == '.' && '/' !in r.1 && '.' !in r.1[1..])
  {
    var sepIndex := LastIndexOf(p, '/');
    var dotIndex := LastIndexOf(p, '.');
    if dotIndex > sepIndex && exists j :: sepIndex < j < dotIndex && p[j] != '.' then
      (p[..dotIndex], p[dotIndex..])
    else
      (p, [])
  }

  /// The `i`-th alternative name tried for `path`: `stem_i` followed by the
  /// extension. (The docstring's example shows `-1`; the code formats `_1`.)
  function Renamed(path: string, i: nat): string
  {
    var (stem, ext) := SplitExt(path);
    stem + "_" + NatToString(i) + ext
  }

  lemma RenamedInjective(path: string, i: nat, j: nat)
    requires Renamed(path, i) == Renamed(path, j)
    ensures i == j
  {
    var (stem, ext) := SplitExt(path);
    assert stem + "_" + NatToString(i) + ext == (stem + "_") + NatToString(i) + ext;
    assert stem + "_" + NatToString(j) + ext == (stem + "_") + NatToString(j) + ext;
    CancelAround(stem + "_", NatToString(i), NatToString(j), ext);
    NatToStringInjective(i, j);
  }

  /// `get_nonexistant_path`: `path` itself when it does not exist, and
  /// otherwise the first of `stem_1.ext`, `stem_2.ext`, ... that does not.
  /// `existing` is the set of paths present on the filesystem.
  method GetNonexistentPath(path: string, existing: set<string>) returns (r: string)
    ensures r !in existing
    ensures path !in existing ==> r == path
    ensures path in existing ==>
      exists i: nat :: i >= 1 && r == Renamed(path, i) &&
        forall j: nat :: 1 <= j < i ==> Renamed(path, j) in existing
  {
    if path !in existing {
      return path;
    }
    var (stem, ext) := SplitExt(path);
    var i: nat := 1;
    r := stem + "_" + NatToString(i) + ext;
    ghost var tried: set<string> := {};
    while r in existing
      invariant i >= 1 && r == Renamed(path, i)
      invariant forall j: nat :: 1 <= j < i ==> Renamed(path, j) in existing
      invariant tried <= existing
      invariant forall s :: s in tried ==> exists j: nat :: 1 <= j < i && s == Renamed(path, j)
      decreases existing - tried
    {
      if r in tried {
        var j: nat :| 1 <= j < i && r == Renamed(path, j);
        RenamedInjective(path, i, j);
      }
      tried := tried + {r};
      i := i + 1;
      r := stem + "_" + NatToString(i) + ext;
    }
  }

  // ---------------------------------------------------------------------
  // get_nonexistant_shard_path
  // ---------------------------------------------------------------------

  /// A shard file-name pattern such as `town_%06d.tar`: the text before the
  /// directive, the directive's zero-pad width, and the text after it.
  datatype ShardPattern = ShardPattern(prefix: string, width: nat, suffix: string)

  /// `pattern % index`.
  function Render(p: ShardPattern, index: nat): string
  {
    p.prefix + Format0d(index, p.width) + p.suffix
  }

  lemma RenderInjective(p: ShardPattern, i: nat, j: nat)
    requires Render(p, i) == Render(p, j)
    ensures i == j
  {
    CancelAround(p.prefix, Format0d(i, p.width), Format0d(j, p.width), p.suffix);
    Format0dInjective(i, j, p.width);
  }

  /// The function returns either the pattern string itself or an integer.
  datatype ShardPath = PatternItself(pattern: ShardPattern) | FirstFreeIndex(index: nat)

  /// `get_nonexistant_shard_path`: the pattern itself when shard 0 is not a
  /// regular file (`files`), otherwise the least index >= 1 whose rendering
  /// does not exist (`existing`). The two tests use different predicates.
  method GetNonexistentShardPath(p: ShardPattern, files: set<string>, existing: set<string>)
    returns (r: ShardPath)
    ensures Render(p, 0) !in files ==> r == PatternItself(p)
    ensures Render(p, 0) in files ==>
      && r.FirstFreeIndex?
      && r.index >= 1
      && Render(p, r.index) !in existing
      && forall j: nat :: 1 <= j < r.index ==> Render(p, j) in existing
  {
    if Render(p, 0) !in files {
      return PatternItself(p);
    }
    var index: nat := 1;
    ghost var tried: set<string> := {};
    while Render(p, index) in existing
      invariant index >= 1
      invariant forall j: nat :: 1 <= j < index ==> Render(p, j) in existing
      invariant tried <= existing
      invariant forall s :: s in tried ==> exists j: nat :: 1 <= j < index && s == Render(p, j)
      decreases existing - tried
    {
      if Render(p, index) in tried {
        var j: nat :| 1 <= j < index && Render(p, index) == Render(p, j);
        RenderInjective(p, index, j);
      }
      tried := tried + {Render(p, index)};
      index := index + 1;
    }
    r := FirstFreeIndex(index);
  }

  // ---------------------------------------------------------------------
  // labels_to_cityscapes_palette
  // ---------------------------------------------------------------------

  datatype Rgb = Rgb(r: int, g: int, b: int)

  const Black := Rgb(0, 0, 0)

  /// The `classes` table: CARLA semantic label -> Cityscapes colour.
  function ClassColor(lab: int): (c: Option<Rgb>)
    ensures c.Some? <==> 0 <= lab <= 12
  {
    match lab
    case 0 => Some(Rgb(0, 0, 0))
    case 1 => Some(Rgb(70, 70, 70))
    case 2 => Some(Rgb(190, 153, 153))
    case 3 => Some(Rgb(72, 0, 90))
    case 4 => Some(Rgb(220, 20, 60))
    case 5 => Some(Rgb(153, 153, 153))
    case 6 => Some(Rgb(157, 234, 50))
    case 7 => Some(Rgb(128, 64, 128))
    case 8 => Some(Rgb(244, 35, 232))
    case 9 => Some(Rgb(107, 142, 35))
    case 10 => Some(Rgb(0, 0, 255))
    case 11 => Some(Rgb(102, 102, 156))
    case 12 => Some(Rgb(220, 220, 0))
    case _ => None
  }

  /// The colour a pixel with label `lab` ends up with: its class colour, or the
  /// zero the result array was initialised with.
  function PaletteColor(lab: int): (c: Rgb)
    ensures 0 <= c.r < 256 && 0 <= c.g < 256 && 0 <= c.b < 256
    ensures !(0 <= lab <= 12) ==> c == Black
  {
    match ClassColor(lab)
    case Some(c) => c
    case None => Black
  }

  /// Reads a colour back to the label that produced it; `None` for black
  /// and for colours outside the table.
  function LabelOf(c: Rgb): Option<int>
  {
    if c == Black then None
    else if exists k :: 1 <= k <= 12 && ClassColor(k) == Some(c) then
      Some(LabelSearch(c, 1))
    else None
  }

  function LabelSearch(c: Rgb, k: int): int
    requires 1 <= k <= 13
    decreases 13 - k
  {
    if k == 13 then 0 else if ClassColor(k) == Some(c) then k else LabelSearch(c, k + 1)
  }

  /// The twelve non-background classes get twelve distinct non-black
  /// colours, so the palette image determines the lab image up to the
  /// labels that all render black.
  lemma PaletteRoundTrip(lab: int)
    ensures 1 <= lab <= 12 ==> LabelOf(PaletteColor(lab)) == Some(lab)
    ensures !(1 <= lab <= 12) ==> LabelOf(PaletteColor(lab)) == None
  {
  }

  /// `labels_to_cityscapes_palette`: a fresh h x w colour image, zeroed,
  /// then painted class by class where the lab image equals the class.
  method LabelsToCityscapesPalette(image: array2<int>) returns (result: array2<Rgb>)
    ensures fresh(result)
    ensures result.Length0 == image.Length0 && result.Length1 == image.Length1
    ensures forall i, j :: 0 <= i < image.Length0 && 0 <= j < image.Length1 ==>
      result[i, j] == PaletteColor(image[i, j])
  {
    var h, w := image.Length0, image.Length1;
    result := new Rgb[h, w]((_, _) => Black);
    for key := 0 to 13
      invariant forall i, j :: 0 <= i < h && 0 <= j < w ==>
        result[i, j] == (if 0 <= image[i, j] < key then PaletteColor(image[i, j]) else Black)
    {
      var color := PaletteColor(key);
      for i := 0 to h
        invariant forall i', j :: 0 <= i' < h && 0 <= j < w ==>
          result[i', j] == (if 0 <= image[i', j] < (if i' < i then key + 1 else key)
                            then PaletteColor(image[i', j]) else Black)
      {
        for j := 0 to w
          invariant forall i', j' :: 0 <= i' < h && 0 <= j' < w ==>
            result[i', j'] == (if 0 <= image[i', j'] < (if i' < i || (i' == i && j' < j) then key + 1 else key)
                               then PaletteColor(image[i', j']) else Black)
        {
          if image[i, j] == key {
            result[i, j] := color;
          }
        }
      }
    }
  }

  // ---------------------------------------------------------------------
  // skip_run
  // ---------------------------------------------------------------------

  /// What a block can raise: the private `SkipWith` or anything else.
  datatype Signal = SkipWith | Other(e: Exception)

  /// The effect of running a block on a state: the state it leaves and the
  /// exception, if any, it ends with.
  datatype Outcome<S> = Outcome(state: S, raised: Option<Signal>)

  /// `with skip_run(flag, name) as check, check(): block`. The inner
  /// context raises `SkipWith` before the block when `flag` is `'skip'`;
  /// the outer one swallows every `SkipWith`, including one from the block.
  function SkipRun<S>(flag: string, block: S -> Outcome<S>, s: S): (r: Outcome<S>)
    ensures r.raised != Some(SkipWith)
    ensures flag == "skip" ==> r == Outcome(s, None)
    ensures flag != "skip" ==> r.state == block(s).state
    ensures flag != "skip" && block(s).raised != Some(SkipWith) ==> r.raised == block(s).raised
    ensures flag != "skip" && block(s).raised == Some(SkipWith) ==> r.raised == None
  {
    var inner := if flag in ["skip"] then Outcome(s, Some(SkipWith)) else block(s);
    if inner.raised == Some(SkipWith) then Outcome(inner.state, None) else inner
  }
}
