/// core/helper.py: the recursive dictionary merge and the choice of the
/// newest RLlib checkpoint below a training directory. The directory walk
/// is an input (the `(root, dirnames)` pairs `os.walk` yields, in order),
/// and so is the filesystem's set of directories.
module CoreHelper {
  import opened Common
  import opened Decimal

  // ---------------------------------------------------------------------
  // join_dicts
  // ---------------------------------------------------------------------

  /// `d.get(k, {})`.
  function Lookup(d: map<string, Value>, k: string): Value
  {
    if k in d then d[k] else Dict(map[])
  }

  /// `join_dicts(d, u)` on a mapping `d`: a copy of `d` in which every key
  /// of `u` is overwritten by `u`'s value, except that a mapping value of
  /// `u` is merged recursively into `d.get(k, {})`. `None` when a nested
  /// call is handed a value of `d` it cannot copy or update (Python raises
  /// AttributeError or TypeError there).
  function JoinDicts(d: map<string, Value>, u: map<string, Value>): (r: Option<map<string, Value>>)
    ensures r.Some? ==> r.value.Keys == d.Keys + u.Keys
    ensures r.Some? ==> forall k :: k in d && k !in u ==> r.value[k] == d[k]
    ensures r.Some? ==> forall k :: k in u && !u[k].Dict? ==> r.value[k] == u[k]
    ensures r.Some? <==> forall k :: k in u && u[k].Dict? ==> JoinNested(Lookup(d, k), u[k].entries).Some?
    ensures r.Some? ==> forall k :: k in u && u[k].Dict? ==> r.value[k] == JoinNested(Lookup(d, k), u[k].entries).value
    decreases Dict(u), 0
  {
    if forall k :: k in u && u[k].Dict? ==> JoinNested(Lookup(d, k), u[k].entries).Some? then
      Some(map k | k in d.Keys + u.Keys ::
        if k in u then
          if u[k].Dict? then JoinNested(Lookup(d, k), u[k].entries).value else u[k]
        else d[k])
    else
      None
  }

  /// The recursive call `join_dicts(dv, um)` where `dv` may be any value:
  /// a mapping is merged; a list (or other object with `.copy()`) survives
  /// only when there is nothing to write into it; anything else has no
  /// `.copy()`.
  function JoinNested(dv: Value, um: map<string, Value>): (r: Option<Value>)
    ensures r.Some? && dv.Dict? ==> r.value.Dict?
    decreases Dict(um), 1
  {
    match dv
    case Dict(dm) =>
      (match JoinDicts(dm, um)
       case Some(m) => Some(Dict(m))
       case None => None)
    case List(_) => if um == map[] then Some(dv) else None
    case Blob(_) => if um == map[] then Some(dv) else None
    case _ => None
  }

  /// Merging nothing into `d` gives `d` back.
  lemma JoinEmptyIsIdentity(d: map<string, Value>)
    ensures JoinDicts(d, map[]) == Some(d)
  {
    assert JoinDicts(d, map[]).value == d;
  }

  /// Merging into an empty dict rebuilds `u` exactly.
  lemma {:induction false} JoinIntoEmpty(u: map<string, Value>)
    ensures JoinDicts(map[], u) == Some(u)
    decreases Dict(u)
  {
    forall k | k in u && u[k].Dict?
      ensures JoinNested(Lookup(map[], k), u[k].entries) == Some(u[k])
    {
      JoinIntoEmpty(u[k].entries);
    }
    var r := JoinDicts(map[], u);
    assert r.Some?;
    assert r.value == u;
  }

  /// Merging a dict into itself changes nothing.
  lemma {:induction false} JoinWithSelf(d: map<string, Value>)
    ensures JoinDicts(d, d) == Some(d)
    decreases Dict(d)
  {
    forall k | k in d && d[k].Dict?
      ensures JoinNested(Lookup(d, k), d[k].entries) == Some(d[k])
    {
      JoinWithSelf(d[k].entries);
    }
    var r := JoinDicts(d, d);
    assert r.Some?;
    assert r.value == d;
  }

  // ---------------------------------------------------------------------
  // find_latest_checkpoint
  // ---------------------------------------------------------------------

  /// One `(root, dirnames)` pair of the walk; file names are not used.
  datatype WalkEntry = WalkEntry(root: string, dirs: seq<string>)

  /// One candidate directory together with the root it was found under.
  datatype Candidate = Candidate(root: string, dir: string)

  /// `sep.join(fields)`, the inverse of `split`.
  function Join(fields: seq<string>, sep: char): string
    requires |fields| >= 1
    decreases |fields|
  {
    if |fields| == 1 then fields[0] else fields[0] + [sep] + Join(fields[1..], sep)
  }

  /// `str.split(sep)`: the fields between separators; never empty, none
  /// holding the separator, and joined back they give the string.
  function Split(s: string, sep: char): (r: seq<string>)
    ensures |r| >= 1
    ensures |r| == 1 <==> sep !in s
    ensures forall i :: 0 <= i < |r| ==> sep !in r[i]
    ensures Join(r, sep) == s
  {
    if s == [] then [[]]
    else if s[0] == sep then
      var rest := Split(s[1..], sep);
      JoinCons([], rest, sep);
      [[]] + rest
    else
      var rest := Split(s[1..], sep);
      JoinPrepend(s[0], rest, sep);
      [[s[0]] + rest[0]] + rest[1..]
  }

  lemma JoinCons(head: string, rest: seq<string>, sep: char)
    requires |rest| >= 1
    ensures Join([head] + rest, sep) == head + [sep] + Join(rest, sep)
  {
    assert ([head] + rest)[1..] == rest;
  }

  /// A character put in front of the first field is put in front of the join.
  lemma JoinPrepend(c: char, fields: seq<string>, sep: char)
    requires |fields| >= 1
    ensures Join([[c] + fields[0]] + fields[1..], sep) == [c] + Join(fields, sep)
  {
    if |fields| > 1 {
      JoinCons([c] + fields[0], fields[1..], sep);
    }
  }

  /// Splitting joined separator-free fields gives the fields back, so a
  /// string has exactly one split.
  lemma {:induction false} SplitJoin(fields: seq<string>, sep: char)
    requires |fields| >= 1
    requires forall i :: 0 <= i < |fields| ==> sep !in fields[i]
    ensures Split(Join(fields, sep), sep) == fields
    decreases |fields|
  {
    if |fields| == 1 {
      SplitNoSeparator(fields[0], sep);
    } else {
      SplitJoin(fields[1..], sep);
      SplitPrefix(fields[0], Join(fields[1..], sep), sep);
    }
  }

  lemma {:induction false} SplitNoSeparator(s: string, sep: char)
    requires sep !in s
    ensures Split(s, sep) == [s]
    decreases |s|
  {
    if s != [] {
      SplitNoSeparator(s[1..], sep);
    }
  }

  /// A separator-free head becomes the first field.
  lemma {:induction false} SplitPrefix(head: string, tail: string, sep: char)
    requires sep !in head
    ensures Split(head + [sep] + tail, sep) == [head] + Split(tail, sep)
    decreases |head|
  {
    if head == [] {
      assert head + [sep] + tail == [sep] + tail;
      assert ([sep] + tail)[1..] == tail;
    } else {
      var s := head + [sep] + tail;
      assert s[0] == head[0] && s[1..] == head[1..] + [sep] + tail;
      SplitPrefix(head[1..], tail, sep);
      var rest := Split(s[1..], sep);
      assert rest == [head[1..]] + Split(tail, sep);
      assert [s[0]] + rest[0] == head;
      assert rest[1..] == Split(tail, sep);
    }
  }

  predicate IsPrefix(a: string, b: string)
  {
    |a| <= |b| && b[..|a|] == a
  }

  /// Python's `a in b` on strings.
  predicate IsSubstring(a: string, b: string)
    decreases |b|
  {
    IsPrefix(a, b) || (|b| > 0 && IsSubstring(a, b[1..]))
  }

  /// `directory.split('_')[0] in "checkpoint_"`: a SUBSTRING test, so that
  /// `check_3`, `point_3` and `_3` qualify as well as `checkpoint_3`.
  predicate Qualifies(dir: string)
  {
    IsSubstring(Split(dir, '_')[0], "checkpoint_")
  }

  /// The checkpoint number of a qualifying directory:
  /// `int(directory.split('_')[1])`, or the exception that raises.
  function CheckpointNumber(dir: string): Result<int, Exception>
  {
    var fields := Split(dir, '_');
    if |fields| < 2 then Err(IndexError)
    else match ParseInt(fields[1])
      case None => Err(ValueError)
      case Some(n) => Ok(n)
  }

  function CheckpointPath(c: Candidate, n: int): string
  {
    c.root + "/" + c.dir + "/checkpoint-" + IntToString(n)
  }

  /// How the loop body reads one directory name: not a checkpoint
  /// directory, a checkpoint directory whose number cannot be read (the
  /// exception raised), or one with a number.
  datatype Reading = Skip | Fault(e: Exception) | Numbered(n: int)

  function Read(c: Candidate): Reading
  {
    if !Qualifies(c.dir) then Skip
    else match CheckpointNumber(c.dir)
      case Err(e) => Fault(e)
      case Ok(n) => Numbered(n)
  }

  /// A directory named the way RLlib names checkpoints, `checkpoint_`
  /// followed by the zero-padded number, qualifies and reads as that number.
  lemma CheckpointNameRead(root: string, n: nat, width: nat)
    ensures Read(Candidate(root, "checkpoint_" + Format0d(n, width))) == Numbered(n)
  {
    var digits := Format0d(n, width);
    var dir := "checkpoint_" + digits;
    assert forall i :: 0 <= i < |digits| ==> IsDigit(digits[i]);
    assert '_' !in digits;
    assert Join(["checkpoint", digits], '_') == dir;
    SplitJoin(["checkpoint", digits], '_');
    assert Split(dir, '_') == ["checkpoint", digits];
    assert IsPrefix("checkpoint", "checkpoint_");
    Format0dRoundTrip(n, width);
    assert ParseInt(digits) == Some(n);
  }

  /// The loop state: the running maximum and the path recorded for it.
  datatype Best = Best(max: int, path: string)

  const Initial := Best(-1, "")

  // The scan is stated for any way `read` of reading a directory name, so
  // that its proofs need nothing about the string functions; the program
  // uses it with `read == Read`.

  /// One iteration of the inner loop: a larger number replaces the
  /// maximum (strictly larger, so the first of equal numbers stays).
  function Step(read: Candidate -> Reading, acc: Result<Best, Exception>, c: Candidate)
    : Result<Best, Exception>
  {
    match acc
    case Err(_) => acc
    case Ok(b) =>
      match read(c)
      case Skip => acc
      case Fault(e) => Err(e)
      case Numbered(n) => if n > b.max then Ok(Best(n, CheckpointPath(c, n))) else acc
  }

  /// The loop run over candidates in walk order.
  function Scan(read: Candidate -> Reading, cs: seq<Candidate>): Result<Best, Exception>
  {
    if cs == [] then Ok(Initial) else Step(read, Scan(read, cs[..|cs| - 1]), cs[|cs| - 1])
  }

  /// The directories of one walk entry, each with its root.
  function Candidates(root: string, dirs: seq<string>): (cs: seq<Candidate>)
    ensures |cs| == |dirs|
    ensures forall k :: 0 <= k < |dirs| ==> cs[k] == Candidate(root, dirs[k])
  {
    if dirs == [] then [] else Candidates(root, dirs[..|dirs| - 1]) + [Candidate(root, dirs[|dirs| - 1])]
  }

  /// Every directory of the walk, in the order the nested loops visit them.
  function Flatten(walk: seq<WalkEntry>): seq<Candidate>
  {
    if walk == [] then []
    else Flatten(walk[..|walk| - 1]) + Candidates(walk[|walk| - 1].root, walk[|walk| - 1].dirs)
  }

  /// What `find_latest_checkpoint` returns or raises for a walk.
  function Latest(walk: seq<WalkEntry>): Result<string, Exception>
  {
    Outcome(Read, walk)
  }

  function Outcome(read: Candidate -> Reading, walk: seq<WalkEntry>): Result<string, Exception>
  {
    match Scan(read, Flatten(walk))
    case Err(e) => Err(e)
    case Ok(b) => if b.path == "" then Err(FileNotFoundError) else Ok(b.path)
  }

  /// A directory's number, when it is a checkpoint directory and readable.
  function Number(read: Candidate -> Reading, c: Candidate): Option<int>
  {
    match read(c)
    case Numbered(n) => Some(n)
    case _ => None
  }

  /// Once the scan has raised, the rest of the walk is not looked at.
  lemma {:induction false} ScanStopsAtError(read: Candidate -> Reading, cs: seq<Candidate>, p: seq<Candidate>)
    requires p <= cs && Scan(read, p).Err?
    ensures Scan(read, cs) == Scan(read, p)
  {
    if |cs| > |p| {
      ScanStopsAtError(read, cs[..|cs| - 1], p);
    } else {
      assert p == cs;
    }
  }

  lemma {:induction false} FlattenPrefix(walk: seq<WalkEntry>, i: nat)
    requires i <= |walk|
    ensures Flatten(walk[..i]) <= Flatten(walk)
    decreases |walk|
  {
    if i < |walk| {
      var init := walk[..|walk| - 1];
      assert walk[..i] == init[..i];
      FlattenPrefix(init, i);
    } else {
      assert walk[..i] == walk;
    }
  }

  /// The first unreadable checkpoint directory decides the exception.
  lemma {:induction false} ScanFirstFault(read: Candidate -> Reading, cs: seq<Candidate>, i: nat)
    requires i < |cs| && read(cs[i]).Fault?
    requires forall j :: 0 <= j < i ==> !read(cs[j]).Fault?
    ensures Scan(read, cs) == Err(read(cs[i]).e)
  {
    var init := cs[..|cs| - 1];
    if i < |cs| - 1 {
      ScanFirstFault(read, init, i);
    } else {
      ScanNoFault(read, init);
    }
  }

  /// Every readable number in `cs` is at most `n`.
  ghost predicate AtMost(read: Candidate -> Reading, cs: seq<Candidate>, n: int)
  {
    forall j :: 0 <= j < |cs| && Number(read, cs[j]).Some? ==> Number(read, cs[j]).value <= n
  }

  /// `cs[i]` carries `n` and no directory before it carries `n` or more.
  ghost predicate FirstReaching(read: Candidate -> Reading, cs: seq<Candidate>, i: int, n: int)
  {
    && 0 <= i < |cs|
    && Number(read, cs[i]) == Some(n)
    && forall j :: 0 <= j < i && Number(read, cs[j]).Some? ==> Number(read, cs[j]).value < n
  }

  /// `b` is what the scan of `cs` must end with when no directory of `cs`
  /// is unreadable: the largest readable number (at least -1), and the path
  /// of the first directory carrying it, or "" when none is non-negative.
  ghost predicate IsLatest(read: Candidate -> Reading, cs: seq<Candidate>, b: Best)
  {
    && b.max >= -1
    && AtMost(read, cs, b.max)
    && (b.path == "" <==> b.max == -1)
    && (b.path != "" ==>
          exists i :: FirstReaching(read, cs, i, b.max) && b.path == CheckpointPath(cs[i], b.max))
  }

  /// Without unreadable directories the scan keeps the strictly largest
  /// non-negative number, the first directory that reaches it, and its path.
  lemma {:induction false} ScanNoFault(read: Candidate -> Reading, cs: seq<Candidate>)
    requires forall j :: 0 <= j < |cs| ==> !read(cs[j]).Fault?
    ensures Scan(read, cs).Ok? && IsLatest(read, cs, Scan(read, cs).value)
  {
    if cs != [] {
      var init := cs[..|cs| - 1];
      assert forall j :: 0 <= j < |init| ==> init[j] == cs[j];
      ScanNoFault(read, init);
      var b := Scan(read, init).value;
      var last := cs[|cs| - 1];
      if Number(read, last).Some? && Number(read, last).value > b.max {
        var n := Number(read, last).value;
        assert Scan(read, cs) == Ok(Best(n, CheckpointPath(last, n)));
        assert |CheckpointPath(last, n)| > 0;
        assert FirstReaching(read, cs, |cs| - 1, n);
        assert IsLatest(read, cs, Best(n, CheckpointPath(last, n)));
      } else {
        assert Scan(read, cs) == Ok(b);
        if b.path != "" {
          var i :| FirstReaching(read, init, i, b.max) && b.path == CheckpointPath(init[i], b.max);
          assert FirstReaching(read, cs, i, b.max);
        }
        assert IsLatest(read, cs, b);
      }
    }
  }

  /// `find_latest_checkpoint` raises the exception of the first checkpoint
  /// directory, in walk order, whose number cannot be read.
  lemma LatestRaisesFirstFault(walk: seq<WalkEntry>, i: nat)
    requires i < |Flatten(walk)| && Read(Flatten(walk)[i]).Fault?
    requires forall j :: 0 <= j < i ==> !Read(Flatten(walk)[j]).Fault?
    ensures Latest(walk) == Err(Read(Flatten(walk)[i]).e)
  {
    ScanFirstFault(Read, Flatten(walk), i);
  }

  /// When every checkpoint directory is readable, `find_latest_checkpoint`
  /// raises FileNotFoundError exactly when no number is non-negative, and
  /// otherwise returns `root/dir/checkpoint-N` for the first directory with
  /// the largest N.
  lemma LatestPicksFirstMaximum(walk: seq<WalkEntry>)
    requires forall j :: 0 <= j < |Flatten(walk)| ==> !Read(Flatten(walk)[j]).Fault?
    ensures PicksFirstMaximum(Read, Flatten(walk), Latest(walk))
  {
    OutcomePicksFirstMaximum(Read, walk);
  }

  ghost predicate PicksFirstMaximum(read: Candidate -> Reading, cs: seq<Candidate>, r: Result<string, Exception>)
  {
    && (r.Ok? || r == Err(FileNotFoundError))
    && (r == Err(FileNotFoundError) <==> AtMost(read, cs, -1))
    && (r.Ok? ==>
          exists i, n :: n >= 0 && AtMost(read, cs, n) && FirstReaching(read, cs, i, n) &&
            r.value == CheckpointPath(cs[i], n))
  }

  lemma OutcomePicksFirstMaximum(read: Candidate -> Reading, walk: seq<WalkEntry>)
    requires forall j :: 0 <= j < |Flatten(walk)| ==> !read(Flatten(walk)[j]).Fault?
    ensures PicksFirstMaximum(read, Flatten(walk), Outcome(read, walk))
  {
    var cs := Flatten(walk);
    ScanNoFault(read, cs);
    var b := Scan(read, cs).value;
    assert Outcome(read, walk) == if b.path == "" then Err(FileNotFoundError) else Ok(b.path);
    BestPicksFirstMaximum(read, cs, b);
  }

  /// The final check of `find_latest_checkpoint` turns the scan's end
  /// state into the first largest checkpoint, or FileNotFoundError.
  lemma BestPicksFirstMaximum(read: Candidate -> Reading, cs: seq<Candidate>, b: Best)
    requires IsLatest(read, cs, b)
    ensures PicksFirstMaximum(read, cs, if b.path == "" then Err(FileNotFoundError) else Ok(b.path))
  {
    if b.path != "" {
      var i :| FirstReaching(read, cs, i, b.max) && b.path == CheckpointPath(cs[i], b.max);
      assert !AtMost(read, cs, -1) by {
        assert Number(read, cs[i]).value == b.max;
      }
    }
  }

  /// Candidates of a prefix of the directory list are a prefix.
  lemma CandidatesPrefix(root: string, dirs: seq<string>, j: nat)
    requires j <= |dirs|
    ensures Candidates(root, dirs[..j]) <= Candidates(root, dirs)
  {
  }

  /// The inner loop's step on the scanned prefix.
  lemma ScanExtend(read: Candidate -> Reading, done: seq<Candidate>, root: string, dirs: seq<string>, j: nat)
    requires j < |dirs|
    ensures Scan(read, done + Candidates(root, dirs[..j + 1])) ==
            Step(read, Scan(read, done + Candidates(root, dirs[..j])), Candidate(root, dirs[j]))
  {
    assert dirs[..j + 1][..j] == dirs[..j];
    var before := done + Candidates(root, dirs[..j]);
    var after := done + Candidates(root, dirs[..j + 1]);
    assert after == before + [Candidate(root, dirs[j])];
    assert after[..|after| - 1] == before;
  }

  /// The outer loop's step: one more walk entry scanned.
  lemma FlattenExtend(walk: seq<WalkEntry>, i: nat)
    requires i < |walk|
    ensures Flatten(walk[..i]) + Candidates(walk[i].root, walk[i].dirs) == Flatten(walk[..i + 1])
  {
    assert walk[..i + 1][..i] == walk[..i];
  }

  /// The inner loop of `find_latest_checkpoint` over the directories of
  /// one walk entry, continuing from the maximum and path found so far;
  /// an unreadable checkpoint directory ends the scan with its exception.
  method ScanEntry(read: Candidate -> Reading, ghost done: seq<Candidate>, root: string, dirs: seq<string>,
                   start: Best)
    returns (r: Result<Best, Exception>)
    requires Scan(read, done) == Ok(start)
    ensures r == Scan(read, done + Candidates(root, dirs))
  {
    var maxCheckpoint, checkpointPath := start.max, start.path;
    assert done + Candidates(root, dirs[..0]) == done;
    for j := 0 to |dirs|
      invariant Scan(read, done + Candidates(root, dirs[..j])) == Ok(Best(maxCheckpoint, checkpointPath))
    {
      ScanExtend(read, done, root, dirs, j);
      match read(Candidate(root, dirs[j]))
      case Skip =>
      case Fault(e) =>
        CandidatesPrefix(root, dirs, j + 1);
        ScanStopsAtError(read, done + Candidates(root, dirs), done + Candidates(root, dirs[..j + 1]));
        return Err(e);
      case Numbered(n) =>
        if n > maxCheckpoint {
          maxCheckpoint := n;
          checkpointPath := CheckpointPath(Candidate(root, dirs[j]), n);
        }
    }
    assert dirs[..|dirs|] == dirs;
    r := Ok(Best(maxCheckpoint, checkpointPath));
  }

  /// `find_latest_checkpoint(directory)` over the walk of `directory`.
  method FindLatestCheckpoint(walk: seq<WalkEntry>) returns (r: Result<string, Exception>)
    ensures r == Latest(walk)
  {
    var best := Initial;
    for i := 0 to |walk|
      invariant Scan(Read, Flatten(walk[..i])) == Ok(best)
    {
      var scanned := ScanEntry(Read, Flatten(walk[..i]), walk[i].root, walk[i].dirs, best);
      FlattenExtend(walk, i);
      if scanned.Err? {
        FlattenPrefix(walk, i + 1);
        ScanStopsAtError(Read, Flatten(walk), Flatten(walk[..i + 1]));
        return Err(scanned.error);
      }
      best := scanned.value;
    }
    assert walk[..|walk|] == walk;
    if best.path == "" {
      return Err(FileNotFoundError);
    }
    r := Ok(best.path);
  }

  // ---------------------------------------------------------------------
  // get_checkpoint
  // ---------------------------------------------------------------------

  /// `os.path.join(a, b)` for two components.
  function PathJoin(a: string, b: string): string
  {
    if |b| > 0 && b[0] == '/' then b
    else if a == [] || a[|a| - 1] == '/' then a + b
    else a + "/" + b
  }

  function Restored(latest: Result<string, Exception>): Result<Option<string>, Exception>
  {
    match latest
    case Ok(p) => Ok(Some(p))
    case Err(e) => Err(e)
  }

  /// `get_checkpoint(training_directory, name, restore, overwrite)`.
  /// `directories` is the set of existing directories and `walkOf` gives
  /// the walk below a directory. Besides the result, `removed` names the
  /// directory deleted with `rmtree`, if any.
  method GetCheckpoint(trainingDirectory: string, name: Option<string>, restore: bool, overwrite: bool,
                       directories: set<string>, walkOf: string -> seq<WalkEntry>)
    returns (r: Result<Option<string>, Exception>, removed: Option<string>)
    ensures var dir := if name.Some? then PathJoin(trainingDirectory, name.value) else trainingDirectory;
      && (overwrite && restore ==> r == Err(RuntimeError) && removed == None)
      && (overwrite && !restore ==> r == Ok(None) && removed == (if dir in directories then Some(dir) else None))
      && (restore && !overwrite ==> removed == None && r == Restored(Latest(walkOf(dir))))
      && (!overwrite && !restore ==> r == Ok(None) && removed == None)
  {
    var dir := trainingDirectory;
    if name.Some? {
      dir := PathJoin(trainingDirectory, name.value);
    }
    removed := None;
    if overwrite && restore {
      return Err(RuntimeError), None;
    }
    if overwrite {
      if dir in directories {
        removed := Some(dir);
      }
      return Ok(None), removed;
    }
    if restore {
      var latest := FindLatestCheckpoint(walkOf(dir));
      return Restored(latest), None;
    }
    r := Ok(None);
  }
}
