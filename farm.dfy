/** The scanner that groups the entries of the source trees by farm path,
    and the top-level operation that checks the target, scans, resolves,
    creates the target and performs the actions. */
module Farm {
  import opened Errors
  import opened Strings
  import opened Common
  import opened Simplify

  /** One entry visited by the walk of a source tree: its full path, and
      whether it is a directory and whether it is a symbolic link. */
  datatype Entry = Entry(path: string, isDir: bool, isSymlink: bool)

  /** What walking one source tree yields: the entries handed to the
      callback, in visiting order, then the error that ended the walk, if any. */
  datatype WalkResult = WalkResult(entries: seq<Entry>, failure: Option<Error>)

  /** The directory walker, as seen by the farm: source root to walk result. */
  type Walker = string -> WalkResult

  /** The record the walk callback makes of `e` in the tree rooted at
      `sourceDir`. A symbolic link is never a directory record. */
  function RecordOf(sourceDir: string, e: Entry): (r: SourceInfo)
    ensures r.path == TrimPrefix(e.path, sourceDir) && r.source == e.path
    ensures r.isDir <==> e.isDir && !e.isSymlink
  {
    SourceInfo(TrimPrefix(e.path, sourceDir), e.path, e.isDir && !e.isSymlink)
  }

  /** The group of `k`, empty when `k` is not a key. */
  function Lookup(files: map<string, SourceInfoS>, k: string): SourceInfoS {
    if k in files then files[k] else []
  }

  /** The walk callback: skip the source root, append the entry's record to
      the group of its farm path. */
  function AddEntry(files: map<string, SourceInfoS>, sourceDir: string, e: Entry): (r: map<string, SourceInfoS>)
    ensures files.Keys <= r.Keys
    ensures TrimPrefix(e.path, sourceDir) == "" ==> r == files
    ensures TrimPrefix(e.path, sourceDir) != "" ==> r.Keys == files.Keys + {TrimPrefix(e.path, sourceDir)}
    ensures forall p :: Lookup(r, p) ==
              if p != "" && p == TrimPrefix(e.path, sourceDir) then Lookup(files, p) + [RecordOf(sourceDir, e)]
              else Lookup(files, p)
  {
    var farmPath := TrimPrefix(e.path, sourceDir);
    if farmPath == "" then files
    else files[farmPath := Lookup(files, farmPath) + [RecordOf(sourceDir, e)]]
  }

  /** The callback applied to the entries in visiting order. */
  function AddEntries(files: map<string, SourceInfoS>, sourceDir: string, entries: seq<Entry>): (r: map<string, SourceInfoS>)
    decreases |entries|
  {
    if entries == [] then files
    else AddEntry(AddEntries(files, sourceDir, entries[..|entries| - 1]), sourceDir, entries[|entries| - 1])
  }

  /** determineFarm as a fold over the source trees in the order given: the
      first walk error, tagged with its source root, discards everything. */
  function Scan(sourceDirs: seq<string>, walk: Walker): (r: Result<map<string, SourceInfoS>>)
    ensures r.Err? <==> exists j :: 0 <= j < |sourceDirs| && walk(sourceDirs[j]).failure.Some?
    decreases |sourceDirs|
  {
    if sourceDirs == [] then Ok(map[])
    else
      match Scan(sourceDirs[..|sourceDirs| - 1], walk)
      case Err(e) => Err(e)
      case Ok(files) =>
        var sourceDir := sourceDirs[|sourceDirs| - 1];
        var w := walk(sourceDir);
        if w.failure.Some? then Err(Tagged(sourceDir, w.failure.value))
        else Ok(AddEntries(files, sourceDir, w.entries))
  }

  /** A failed scan of the first source trees is the failure of the whole. */
  lemma {:induction false} ScanErrorPersists(sourceDirs: seq<string>, walk: Walker, n: nat)
    requires n <= |sourceDirs| && Scan(sourceDirs[..n], walk).Err?
    ensures Scan(sourceDirs, walk) == Scan(sourceDirs[..n], walk)
    decreases |sourceDirs| - n
  {
    if n == |sourceDirs| {
      assert sourceDirs[..n] == sourceDirs;
    } else {
      var prefix := sourceDirs[..|sourceDirs| - 1];
      assert prefix[..n] == sourceDirs[..n];
      ScanErrorPersists(prefix, walk, n);
    }
  }

  lemma AddEntriesStep(files: map<string, SourceInfoS>, sourceDir: string, entries: seq<Entry>, j: nat)
    requires j < |entries|
    ensures AddEntries(files, sourceDir, entries[..j + 1]) ==
              AddEntry(AddEntries(files, sourceDir, entries[..j]), sourceDir, entries[j])
  {
    assert entries[..j + 1][..j] == entries[..j];
  }

  /** The in-place update of the callback builds the map AddEntry describes. */
  lemma CallbackStep(before: map<string, SourceInfoS>, sourceDir: string, e: Entry, farmPath: string,
                     after: map<string, SourceInfoS>)
    requires farmPath == TrimPrefix(e.path, sourceDir) && farmPath != ""
    requires var g := if farmPath !in before then before[farmPath := []] else before;
             after == g[farmPath := g[farmPath] + [SourceInfo(farmPath, e.path, e.isDir && !e.isSymlink)]]
    ensures after == AddEntry(before, sourceDir, e)
  {
  }

  /** The walk callback of determineFarm, run on each visited entry in
      turn: skip the source root, create the group of a new farm path, and
      append the entry's record to it. */
  method Visit(files: map<string, SourceInfoS>, sourceDir: string, entries: seq<Entry>)
    returns (grown: map<string, SourceInfoS>)
    ensures grown == AddEntries(files, sourceDir, entries)
  {
    grown := files;
    for j := 0 to |entries|
      invariant grown == AddEntries(files, sourceDir, entries[..j])
    {
      var entry := entries[j];
      AddEntriesStep(files, sourceDir, entries, j);
      var farmPath := TrimPrefix(entry.path, sourceDir);
      if farmPath == "" {
        continue;
      }
      ghost var before := grown;
      if farmPath !in grown {
        grown := grown[farmPath := []];
      }
      grown := grown[farmPath := grown[farmPath] + [SourceInfo(farmPath, entry.path, entry.isDir && !entry.isSymlink)]];
      CallbackStep(before, sourceDir, entry, farmPath, grown);
    }
    assert entries[..|entries|] == entries;
  }

  /** determineFarm: walk each source tree in turn, growing the map of groups. */
  method DetermineFarm(sourceDirs: seq<string>, walk: Walker)
    returns (files: map<string, SourceInfoS>, err: Option<Error>)
    ensures err.None? ==> Scan(sourceDirs, walk) == Ok(files)
    ensures err.Some? ==> Scan(sourceDirs, walk) == Err(err.value) && files == map[]
  {
    files := map[];
    for i := 0 to |sourceDirs|
      invariant Scan(sourceDirs[..i], walk) == Ok(files)
    {
      var sourceDir := sourceDirs[i];
      var w := walk(sourceDir);
      files := Visit(files, sourceDir, w.entries);
      assert sourceDirs[..i + 1][..i] == sourceDirs[..i];
      if w.failure.Some? {
        ScanErrorPersists(sourceDirs, walk, i + 1);
        return map[], Some(Tagged(sourceDir, w.failure.value));
      }
    }
    assert sourceDirs[..|sourceDirs|] == sourceDirs;
    err := None;
  }

  /** The records one walk contributes to farm path `k`, in visiting order. */
  function RecordsIn(k: string, sourceDir: string, entries: seq<Entry>): SourceInfoS
    decreases |entries|
  {
    if entries == [] then []
    else
      var e := entries[|entries| - 1];
      RecordsIn(k, sourceDir, entries[..|entries| - 1]) +
        (if k != "" && TrimPrefix(e.path, sourceDir) == k then [RecordOf(sourceDir, e)] else [])
  }

  /** The group of `k`, defined path by path: the records of every source
      tree for `k`, source trees in the order given. */
  function GroupOf(k: string, sourceDirs: seq<string>, walk: Walker): SourceInfoS
    decreases |sourceDirs|
  {
    if sourceDirs == [] then []
    else
      var sourceDir := sourceDirs[|sourceDirs| - 1];
      GroupOf(k, sourceDirs[..|sourceDirs| - 1], walk) + RecordsIn(k, sourceDir, walk(sourceDir).entries)
  }

  lemma {:induction false} AddEntriesGroup(files: map<string, SourceInfoS>, sourceDir: string,
                                           entries: seq<Entry>, k: string)
    ensures Lookup(AddEntries(files, sourceDir, entries), k) == Lookup(files, k) + RecordsIn(k, sourceDir, entries)
    ensures k in AddEntries(files, sourceDir, entries) <==> k in files || RecordsIn(k, sourceDir, entries) != []
    decreases |entries|
  {
    if entries != [] {
      var prefix, e := entries[..|entries| - 1], entries[|entries| - 1];
      AddEntriesGroup(files, sourceDir, prefix, k);
      var before := AddEntries(files, sourceDir, prefix);
      assert AddEntries(files, sourceDir, entries) == AddEntry(before, sourceDir, e);
      assert RecordsIn(k, sourceDir, entries) ==
               RecordsIn(k, sourceDir, prefix) +
                 (if k != "" && TrimPrefix(e.path, sourceDir) == k then [RecordOf(sourceDir, e)] else []);
    }
  }

  /** The map the scan builds holds, for every farm path, exactly the group
      defined path by path: one record per visited entry whose path, with
      its source root stripped, is that farm path, in source order; and
      holds no other key. */
  lemma {:induction false} ScanGroup(sourceDirs: seq<string>, walk: Walker, k: string)
    requires Scan(sourceDirs, walk).Ok?
    ensures Lookup(Scan(sourceDirs, walk).value, k) == GroupOf(k, sourceDirs, walk)
    ensures k in Scan(sourceDirs, walk).value <==> GroupOf(k, sourceDirs, walk) != []
    decreases |sourceDirs|
  {
    if sourceDirs != [] {
      var prefix := sourceDirs[..|sourceDirs| - 1];
      var sourceDir := sourceDirs[|sourceDirs| - 1];
      ScanGroup(prefix, walk, k);
      AddEntriesGroup(Scan(prefix, walk).value, sourceDir, walk(sourceDir).entries, k);
    }
  }

  /** Every record the walk of `sourceDir` contributes to `k` comes from one
      of its entries whose stripped path is `k`. */
  lemma {:induction false} RecordsInOrigin(k: string, sourceDir: string, entries: seq<Entry>, r: SourceInfo)
    requires r in RecordsIn(k, sourceDir, entries)
    ensures k != ""
    ensures exists e :: e in entries && TrimPrefix(e.path, sourceDir) == k && r == RecordOf(sourceDir, e)
    decreases |entries|
  {
    var prefix := entries[..|entries| - 1];
    var e := entries[|entries| - 1];
    if r in RecordsIn(k, sourceDir, prefix) {
      RecordsInOrigin(k, sourceDir, prefix, r);
      var e' :| e' in prefix && TrimPrefix(e'.path, sourceDir) == k && r == RecordOf(sourceDir, e');
      assert e' in entries;
    } else {
      assert e in entries;
    }
  }

  lemma {:induction false} GroupOfOrigin(k: string, sourceDirs: seq<string>, walk: Walker, r: SourceInfo)
    requires r in GroupOf(k, sourceDirs, walk)
    ensures k != ""
    ensures exists j, e :: 0 <= j < |sourceDirs| && e in walk(sourceDirs[j]).entries &&
                           TrimPrefix(e.path, sourceDirs[j]) == k && r == RecordOf(sourceDirs[j], e)
    decreases |sourceDirs|
  {
    var prefix := sourceDirs[..|sourceDirs| - 1];
    var sourceDir := sourceDirs[|sourceDirs| - 1];
    if r in GroupOf(k, prefix, walk) {
      GroupOfOrigin(k, prefix, walk, r);
      var j, e :| 0 <= j < |prefix| && e in walk(prefix[j]).entries &&
                  TrimPrefix(e.path, prefix[j]) == k && r == RecordOf(prefix[j], e);
      assert sourceDirs[j] == prefix[j];
    } else {
      RecordsInOrigin(k, sourceDir, walk(sourceDir).entries, r);
      var e :| e in walk(sourceDir).entries && TrimPrefix(e.path, sourceDir) == k && r == RecordOf(sourceDir, e);
      assert sourceDirs[|sourceDirs| - 1] == sourceDir;
    }
  }

  /** What a successful scan guarantees of every group: it is not empty, its
      farm path is not the root, and each of its records carries that farm
      path, the full path of a visited entry, and the directory flag
      "directory and not a symbolic link" of that entry. */
  lemma ScanRecords(sourceDirs: seq<string>, walk: Walker, k: string, r: SourceInfo)
    requires Scan(sourceDirs, walk).Ok? && k in Scan(sourceDirs, walk).value
    requires r in Scan(sourceDirs, walk).value[k]
    ensures k != "" && r.path == k
    ensures exists j, e :: 0 <= j < |sourceDirs| && e in walk(sourceDirs[j]).entries &&
                           e.path == r.source && TrimPrefix(e.path, sourceDirs[j]) == k &&
                           (r.isDir <==> e.isDir && !e.isSymlink)
  {
    ScanGroup(sourceDirs, walk, k);
    GroupOfOrigin(k, sourceDirs, walk, r);
  }

  /** A successful scan produces groups the resolver accepts. */
  lemma ScanWellFormed(sourceDirs: seq<string>, walk: Walker)
    requires Scan(sourceDirs, walk).Ok?
    ensures WellFormed(Scan(sourceDirs, walk).value)
  {
    forall k | k in Scan(sourceDirs, walk).value
      ensures |Scan(sourceDirs, walk).value[k]| > 0
    {
      ScanGroup(sourceDirs, walk, k);
    }
  }

  /** The scan fails exactly when some walk fails, and then with the error
      of the first source tree whose walk fails, tagged with its root. */
  lemma {:induction false} ScanFails(sourceDirs: seq<string>, walk: Walker)
    ensures Scan(sourceDirs, walk).Err? <==>
              exists j :: 0 <= j < |sourceDirs| && walk(sourceDirs[j]).failure.Some?
    ensures Scan(sourceDirs, walk).Err? ==>
              exists j :: && 0 <= j < |sourceDirs|
                          && walk(sourceDirs[j]).failure.Some?
                          && (forall i :: 0 <= i < j ==> walk(sourceDirs[i]).failure.None?)
                          && Scan(sourceDirs, walk).error == Tagged(sourceDirs[j], walk(sourceDirs[j]).failure.value)
    decreases |sourceDirs|
  {
    if sourceDirs != [] {
      var prefix := sourceDirs[..|sourceDirs| - 1];
      ScanFails(prefix, walk);
      assert forall i :: 0 <= i < |prefix| ==> prefix[i] == sourceDirs[i];
      if Scan(prefix, walk).Err? {
        var j :| && 0 <= j < |prefix|
                 && walk(prefix[j]).failure.Some?
                 && (forall i :: 0 <= i < j ==> walk(prefix[i]).failure.None?)
                 && Scan(prefix, walk).error == Tagged(prefix[j], walk(prefix[j]).failure.value);
      }
    }
  }

  /** What the target directory looks like before the farm is made: absent;
      present but not openable; an empty directory; or present with an entry
      (or not a directory at all), which is what a directory read that does
      not report end-of-directory means. */
  datatype TargetState = Missing | Unopenable(cause: Error) | EmptyDir | NotEmpty

  /** The filesystem as the farm sees it: the state of the target, the
      directory walker, and the outcome of each directory creation. */
  datatype Env = Env(
    target: TargetState,
    walk: Walker,
    mkdirTarget: Option<Error>,
    mkdir: Joined -> Option<Error>)

  /** A change the farm attempts on the filesystem, in the order attempted. */
  datatype Effect = MakeTarget(dir: string) | Perform(op: Op)

  /** The outcome of performing an action: os.Mkdir for a directory, the
      configured linker for a link. */
  function Outcome(op: Op, config: FarmConfig, env: Env): Option<Error> {
    match op
    case MakeDir(path) => env.mkdir(path)
    case MakeLink(oldname, newname) => config.linker(oldname, newname)
  }

  /** Performing an action made by the resolver calls what the action's Go
      closure calls: os.Mkdir on the joined path for a directory, and the
      configured linker from the origin to the joined path for a link. */
  lemma ActionOutcome(targetDir: string, source: string, target: string, config: FarmConfig, env: Env)
    ensures Outcome(CreateMkdirAction(targetDir, target).perform, config, env) == env.mkdir(Join(targetDir, target))
    ensures Outcome(CreateLinkAction(targetDir, source, target).perform, config, env) ==
              config.linker(source, Join(targetDir, target))
  {
  }

  /** The attempted actions and the error that stopped them, if any. */
  datatype RunResult = RunResult(effects: seq<Effect>, err: Option<Error>)

  /** Performing the actions in order, stopping at the first failure;
      RunStopsAtFirstFailure states what that means. */
  function Run(actions: seq<FarmAction>, config: FarmConfig, env: Env): (r: RunResult)
    ensures |r.effects| <= |actions|
    ensures r.err.None? ==> |r.effects| == |actions|
    ensures r.err.Some? ==> 0 < |r.effects|
    decreases |actions|
  {
    if actions == [] then RunResult([], None)
    else
      var e := Outcome(actions[0].perform, config, env);
      if e.Some? then RunResult([Perform(actions[0].perform)], e)
      else
        var rest := Run(actions[1..], config, env);
        RunResult([Perform(actions[0].perform)] + rest.effects, rest.err)
  }

  /** The actions attempted are a prefix of the list, in list order; all
      but the last of them succeeded, and the error returned is the last
      one's. With no error, every action was attempted and succeeded.
      Completed actions are not undone. */
  lemma {:induction false} RunStopsAtFirstFailure(actions: seq<FarmAction>, config: FarmConfig, env: Env)
    ensures var r := Run(actions, config, env);
            && |r.effects| <= |actions|
            && (forall i :: 0 <= i < |r.effects| ==> r.effects[i] == Perform(actions[i].perform))
            && (forall i :: 0 <= i < |r.effects| - 1 ==> Outcome(actions[i].perform, config, env).None?)
            && (r.err.None? ==>
                  |r.effects| == |actions| &&
                  forall i :: 0 <= i < |actions| ==> Outcome(actions[i].perform, config, env).None?)
            && (r.err.Some? ==>
                  |r.effects| > 0 && Outcome(actions[|r.effects| - 1].perform, config, env) == r.err)
    decreases |actions|
  {
    if actions != [] && Outcome(actions[0].perform, config, env).None? {
      RunStopsAtFirstFailure(actions[1..], config, env);
    }
  }

  /** Running actions only ever performs them. */
  lemma RunPerformsOnly(actions: seq<FarmAction>, config: FarmConfig, env: Env)
    ensures forall j :: 0 <= j < |Run(actions, config, env).effects| ==> Run(actions, config, env).effects[j].Perform?
  {
    RunStopsAtFirstFailure(actions, config, env);
  }

  /** When the filesystem accepts every creation, running the actions
      performs all of them, in order, and succeeds. */
  lemma RunSucceeds(actions: seq<FarmAction>, config: FarmConfig, env: Env)
    requires forall p :: env.mkdir(p).None?
    requires forall oldname, newname :: config.linker(oldname, newname).None?
    ensures Run(actions, config, env).err.None?
    ensures Run(actions, config, env).effects == seq(|actions|, i requires 0 <= i < |actions| => Perform(actions[i].perform))
  {
    RunStopsAtFirstFailure(actions, config, env);
  }

  /** What Create may do. A non-empty or unopenable target fails before
      anything else; otherwise the scan comes next (Scans). */
  ghost predicate Creates(config: FarmConfig, targetDir: string, sourceDirs: seq<string>, env: Env,
                          err: Option<Error>, effects: seq<Effect>)
  {
    match env.target
    case NotEmpty => err == Some(TargetExist) && effects == []
    case Unopenable(cause) => err == Some(cause) && effects == []
    case _ => Scans(config, targetDir, sourceDirs, env, err, effects)
  }

  /** A failed scan is returned and nothing is created; otherwise the
      groups are resolved (Builds). */
  ghost predicate Scans(config: FarmConfig, targetDir: string, sourceDirs: seq<string>, env: Env,
                        err: Option<Error>, effects: seq<Effect>)
  {
    match Scan(sourceDirs, env.walk)
    case Err(e) => err == Some(e) && effects == []
    case Ok(files) => WellFormed(files) && Builds(config, targetDir, files, env, err, effects)
  }

  /** A failed resolution is returned and nothing is created. Otherwise the
      target directory is created when it was absent, and the plan is
      performed in order. */
  ghost predicate Builds(config: FarmConfig, targetDir: string, files: map<string, SourceInfoS>, env: Env,
                         err: Option<Error>, effects: seq<Effect>)
    requires WellFormed(files)
  {
    if !Resolvable(files, targetDir, config) then
      && effects == []
      && err.Some?
      && exists k :: k in files && Resolve(targetDir, k, files[k], config) == Fail(err.value)
    else if env.target.Missing? && env.mkdirTarget.Some? then
      err == env.mkdirTarget && effects == [MakeTarget(targetDir)]
    else
      var made := if env.target.Missing? then [MakeTarget(targetDir)] else [];
      exists actions :: && IsPlan(files, targetDir, config, actions)
                        && err == Run(actions, config, env).err
                        && effects == made + Run(actions, config, env).effects
  }

  /** Performing a plan after a successful scan and resolution is what
      Create may do. */
  lemma CreatesByRun(config: FarmConfig, targetDir: string, sourceDirs: seq<string>, env: Env,
                     files: map<string, SourceInfoS>, actions: seq<FarmAction>,
                     err: Option<Error>, effects: seq<Effect>)
    requires env.target.Missing? || env.target.EmptyDir?
    requires Scan(sourceDirs, env.walk) == Ok(files) && WellFormed(files)
    requires Resolvable(files, targetDir, config) && IsPlan(files, targetDir, config, actions)
    requires env.target.Missing? ==> env.mkdirTarget.None?
    requires err == Run(actions, config, env).err
    requires effects == (if env.target.Missing? then [MakeTarget(targetDir)] else []) + Run(actions, config, env).effects
    ensures Creates(config, targetDir, sourceDirs, env, err, effects)
  {
  }

  /** Running from position `i` performs the action there, then stops on
      its error or runs the rest. */
  lemma RunStep(actions: seq<FarmAction>, config: FarmConfig, env: Env, i: nat)
    requires i < |actions|
    ensures var e := Outcome(actions[i].perform, config, env);
            var rest := Run(actions[i + 1..], config, env);
            Run(actions[i..], config, env) ==
              if e.Some? then RunResult([Perform(actions[i].perform)], e)
              else RunResult([Perform(actions[i].perform)] + rest.effects, rest.err)
  {
    assert actions[i..][1..] == actions[i + 1..];
  }

  /** The last step of Create: perform the actions in order and return the
      first error. */
  method Execute(actions: seq<FarmAction>, config: FarmConfig, env: Env)
    returns (err: Option<Error>, effects: seq<Effect>)
    ensures RunResult(effects, err) == Run(actions, config, env)
  {
    effects := [];
    for i := 0 to |actions|
      invariant Run(actions, config, env) ==
                  RunResult(effects + Run(actions[i..], config, env).effects, Run(actions[i..], config, env).err)
    {
      RunStep(actions, config, env, i);
      effects := effects + [Perform(actions[i].perform)];
      var e := Outcome(actions[i].perform, config, env);
      if e.Some? {
        return e, effects;
      }
    }
    assert actions[|actions|..] == [];
    err := None;
  }

  /** Create: make a farm at `targetDir` from the source trees. */
  method Create(config: FarmConfig, targetDir: string, sourceDirs: seq<string>, env: Env)
    returns (err: Option<Error>, effects: seq<Effect>)
    ensures Creates(config, targetDir, sourceDirs, env, err, effects)
  {
    effects := [];
    var createTargetDir := true;
    if env.target != Missing {
      if env.target.Unopenable? {
        return Some(env.target.cause), [];
      }
      if env.target != EmptyDir {
        return Some(TargetExist), [];
      }
      createTargetDir := false;
    }

    var files, scanErr := DetermineFarm(sourceDirs, env.walk);
    if scanErr.Some? {
      return scanErr, [];
    }
    ScanWellFormed(sourceDirs, env.walk);

    var actions, simplifyErr := SimplifyFarm(files, targetDir, config);
    if simplifyErr.Some? {
      return simplifyErr, [];
    }

    if createTargetDir {
      effects := [MakeTarget(targetDir)];
      if env.mkdirTarget.Some? {
        return env.mkdirTarget, effects;
      }
    }

    var launchErr, performed := Execute(actions, config, env);
    err, effects := launchErr, effects + performed;
    CreatesByRun(config, targetDir, sourceDirs, env, files, actions, err, effects);
  }

  /** A target that exists and is not empty is refused with ErrTargetExist,
      and nothing is scanned or created. */
  lemma CreateTargetNotEmpty(config: FarmConfig, targetDir: string, sourceDirs: seq<string>, env: Env,
                             err: Option<Error>, effects: seq<Effect>)
    requires Creates(config, targetDir, sourceDirs, env, err, effects)
    requires env.target == NotEmpty
    ensures err == Some(TargetExist) && effects == []
  {
  }

  /** An existing empty target and no source trees: success, nothing done. */
  lemma CreateEmptyTargetNoSources(config: FarmConfig, targetDir: string, env: Env,
                                   err: Option<Error>, effects: seq<Effect>)
    requires Creates(config, targetDir, [], env, err, effects)
    requires env.target == EmptyDir
    ensures err == None && effects == []
  {
    var files := Scan([], env.walk).value;
    assert files == map[];
    var actions: seq<FarmAction> :| && IsPlan(files, targetDir, config, actions)
                                    && err == Run(actions, config, env).err
                                    && effects == Run(actions, config, env).effects;
  }

  /** The target directory is created only when it was absent and both the
      scan and the resolution succeeded, and only as the first effect. */
  lemma CreateTargetLast(config: FarmConfig, targetDir: string, sourceDirs: seq<string>, env: Env,
                         err: Option<Error>, effects: seq<Effect>, i: nat)
    requires Creates(config, targetDir, sourceDirs, env, err, effects)
    requires i < |effects| && effects[i].MakeTarget?
    ensures i == 0 && effects[i] == MakeTarget(targetDir) && env.target.Missing?
    ensures Scan(sourceDirs, env.walk).Ok?
    ensures && WellFormed(Scan(sourceDirs, env.walk).value)
            && Resolvable(Scan(sourceDirs, env.walk).value, targetDir, config)
  {
    assert Scans(config, targetDir, sourceDirs, env, err, effects);
    var files := Scan(sourceDirs, env.walk).value;
    assert Builds(config, targetDir, files, env, err, effects);
    if !(env.target.Missing? && env.mkdirTarget.Some?) {
      var made := if env.target.Missing? then [MakeTarget(targetDir)] else [];
      var actions: seq<FarmAction> :| && IsPlan(files, targetDir, config, actions)
                                      && err == Run(actions, config, env).err
                                      && effects == made + Run(actions, config, env).effects;
      RunPerformsOnly(actions, config, env);
      assert forall j :: |made| <= j < |effects| ==> effects[j].Perform?;
    }
  }

  /** A farm path that is a directory in one source tree and not in another
      fails the whole operation after the scan, whatever the policy, and
      nothing is created: not even the target directory. The error is
      ErrFileDirectoryConflict unless some other path fails too and happens
      to be resolved first. */
  lemma CreateMixedPathFails(config: FarmConfig, targetDir: string, sourceDirs: seq<string>, env: Env,
                             err: Option<Error>, effects: seq<Effect>, k: string)
    requires Creates(config, targetDir, sourceDirs, env, err, effects)
    requires env.target.Missing? || env.target.EmptyDir?
    requires Scan(sourceDirs, env.walk).Ok? && k in Scan(sourceDirs, env.walk).value
    requires exists r :: r in Scan(sourceDirs, env.walk).value[k] && r.isDir
    requires exists r :: r in Scan(sourceDirs, env.walk).value[k] && !r.isDir
    ensures err.Some? && effects == []
    ensures (forall p :: && p in Scan(sourceDirs, env.walk).value && p != k
                         && |Scan(sourceDirs, env.walk).value[p]| > 0 ==>
               !Resolve(targetDir, p, Scan(sourceDirs, env.walk).value[p], config).Fail?)
            ==> err == Some(FileDirectoryConflict)
  {
    var files := Scan(sourceDirs, env.walk).value;
    assert Scans(config, targetDir, sourceDirs, env, err, effects);
    var r1: SourceInfo :| r1 in files[k] && r1.isDir;
    var r2: SourceInfo :| r2 in files[k] && !r2.isDir;
    var i :| 0 <= i < |files[k]| && files[k][i] == r1;
    var j :| 0 <= j < |files[k]| && files[k][j] == r2;
    ResolveCases(targetDir, k, files[k], config);
    assert !Resolvable(files, targetDir, config);
  }

  /** With the default configuration, a plain file present in two or more
      source trees fails the operation and nothing is created. The error is
      ErrFileConflict, unless another path mixing directories and files
      happens to be resolved first. */
  lemma CreateSharedFileFails(symlink: LinkHandler, targetDir: string, sourceDirs: seq<string>, env: Env,
                              err: Option<Error>, effects: seq<Effect>, k: string)
    requires Creates(DefaultFarmConfig(symlink), targetDir, sourceDirs, env, err, effects)
    requires env.target.Missing? || env.target.EmptyDir?
    requires Scan(sourceDirs, env.walk).Ok? && k in Scan(sourceDirs, env.walk).value
    requires |Scan(sourceDirs, env.walk).value[k]| > 1
    requires forall r :: r in Scan(sourceDirs, env.walk).value[k] ==> !r.isDir
    ensures effects == []
    ensures err == Some(FileConflict) || err == Some(FileDirectoryConflict)
    ensures (forall p :: p in Scan(sourceDirs, env.walk).value ==>
               || (forall r :: r in Scan(sourceDirs, env.walk).value[p] ==> r.isDir)
               || (forall r :: r in Scan(sourceDirs, env.walk).value[p] ==> !r.isDir))
            ==> err == Some(FileConflict)
  {
    var config := DefaultFarmConfig(symlink);
    var files := Scan(sourceDirs, env.walk).value;
    assert Scans(config, targetDir, sourceDirs, env, err, effects);
    ResolveCases(targetDir, k, files[k], config);
    assert !Resolvable(files, targetDir, config);
    var p :| p in files && Resolve(targetDir, p, files[p], config) == Fail(err.value);
    DefaultFailure(files, targetDir, symlink, p);
  }

  /** When every farm path is either a directory in every tree holding it
      or held by a single tree, and the filesystem accepts every creation,
      the operation succeeds: every such directory is made and every lone
      file is linked to its origin. */
  lemma CreateNoConflictSucceeds(config: FarmConfig, targetDir: string, sourceDirs: seq<string>, env: Env,
                                 err: Option<Error>, effects: seq<Effect>)
    requires Creates(config, targetDir, sourceDirs, env, err, effects)
    requires env.target.EmptyDir? || (env.target.Missing? && env.mkdirTarget.None?)
    requires forall p :: env.mkdir(p).None?
    requires forall oldname, newname :: config.linker(oldname, newname).None?
    requires Scan(sourceDirs, env.walk).Ok?
    requires forall k :: k in Scan(sourceDirs, env.walk).value ==>
               || |Scan(sourceDirs, env.walk).value[k]| == 1
               || forall r :: r in Scan(sourceDirs, env.walk).value[k] ==> r.isDir
    ensures err.None?
    ensures forall k :: k in Scan(sourceDirs, env.walk).value && Scan(sourceDirs, env.walk).value[k][0].isDir ==>
              Perform(MakeDir(Join(targetDir, k))) in effects
    ensures forall k :: && k in Scan(sourceDirs, env.walk).value
                        && !Scan(sourceDirs, env.walk).value[k][0].isDir
                        && Scan(sourceDirs, env.walk).value[k][0].source != "" ==>
              Perform(MakeLink(Scan(sourceDirs, env.walk).value[k][0].source, Join(targetDir, k))) in effects
  {
    var files := Scan(sourceDirs, env.walk).value;
    assert Scans(config, targetDir, sourceDirs, env, err, effects);
    BuildsNoConflict(config, targetDir, files, env, err, effects);
  }

  /** The success case of Builds, for groups that cannot conflict. */
  lemma BuildsNoConflict(config: FarmConfig, targetDir: string, files: map<string, SourceInfoS>, env: Env,
                         err: Option<Error>, effects: seq<Effect>)
    requires WellFormed(files) && Builds(config, targetDir, files, env, err, effects)
    requires env.target.EmptyDir? || (env.target.Missing? && env.mkdirTarget.None?)
    requires forall p :: env.mkdir(p).None?
    requires forall oldname, newname :: config.linker(oldname, newname).None?
    requires forall k :: k in files ==> |files[k]| == 1 || forall r :: r in files[k] ==> r.isDir
    ensures err.None?
    ensures forall k :: k in files && files[k][0].isDir ==> Perform(MakeDir(Join(targetDir, k))) in effects
    ensures forall k :: k in files && !files[k][0].isDir && files[k][0].source != "" ==>
              Perform(MakeLink(files[k][0].source, Join(targetDir, k))) in effects
  {
    forall k | k in files
      ensures !Resolve(targetDir, k, files[k], config).Fail?
    {
      UncontestedResolves(files, targetDir, config, k);
    }
    BuildsPerforms(config, targetDir, files, env, err, effects);
    forall k | k in files
      ensures files[k][0].isDir ==> Perform(MakeDir(Join(targetDir, k))) in effects
      ensures !files[k][0].isDir && files[k][0].source != "" ==>
                Perform(MakeLink(files[k][0].source, Join(targetDir, k))) in effects
    {
      UncontestedResolves(files, targetDir, config, k);
    }
  }

  /** A resolvable build, past the creation of the target, performs a plan. */
  lemma BuildsRun(config: FarmConfig, targetDir: string, files: map<string, SourceInfoS>, env: Env,
                  err: Option<Error>, effects: seq<Effect>) returns (actions: seq<FarmAction>)
    requires WellFormed(files) && Builds(config, targetDir, files, env, err, effects)
    requires Resolvable(files, targetDir, config) && !(env.target.Missing? && env.mkdirTarget.Some?)
    ensures IsPlan(files, targetDir, config, actions)
    ensures err == Run(actions, config, env).err
    ensures effects == (if env.target.Missing? then [MakeTarget(targetDir)] else []) + Run(actions, config, env).effects
  {
    var made := if env.target.Missing? then [MakeTarget(targetDir)] else [];
    actions :| && IsPlan(files, targetDir, config, actions)
               && err == Run(actions, config, env).err
               && effects == made + Run(actions, config, env).effects;
  }

  /** When nothing fails to resolve and the filesystem accepts every
      creation, the build succeeds and performs the action of every group
      that yields one. */
  lemma BuildsPerforms(config: FarmConfig, targetDir: string, files: map<string, SourceInfoS>, env: Env,
                       err: Option<Error>, effects: seq<Effect>)
    requires WellFormed(files) && Builds(config, targetDir, files, env, err, effects)
    requires env.target.EmptyDir? || (env.target.Missing? && env.mkdirTarget.None?)
    requires forall p :: env.mkdir(p).None?
    requires forall oldname, newname :: config.linker(oldname, newname).None?
    requires Resolvable(files, targetDir, config)
    ensures err.None?
    ensures forall k :: k in files && Resolve(targetDir, k, files[k], config).Emit? ==>
              Perform(Resolve(targetDir, k, files[k], config).action.perform) in effects
  {
    var made := if env.target.Missing? then [MakeTarget(targetDir)] else [];
    var actions := BuildsRun(config, targetDir, files, env, err, effects);
    RunSucceeds(actions, config, env);
    PlanPerformed(files, targetDir, config, actions, made, effects);
  }

  /** When every action of the plan was performed, so was the action of
      every group that yields one. */
  lemma PlanPerformed(files: map<string, SourceInfoS>, targetDir: string, config: FarmConfig,
                      actions: seq<FarmAction>, made: seq<Effect>, effects: seq<Effect>)
    requires WellFormed(files) && IsPlan(files, targetDir, config, actions)
    requires effects == made + seq(|actions|, i requires 0 <= i < |actions| => Perform(actions[i].perform))
    ensures forall k :: k in files && Resolve(targetDir, k, files[k], config).Emit? ==>
              Perform(Resolve(targetDir, k, files[k], config).action.perform) in effects
  {
    forall k | k in files && Resolve(targetDir, k, files[k], config).Emit?
      ensures Perform(Resolve(targetDir, k, files[k], config).action.perform) in effects
    {
      var i :| 0 <= i < |actions| && actions[i] == Resolve(targetDir, k, files[k], config).action;
      assert effects[|made| + i] == Perform(actions[i].perform);
    }
  }

  /** Past the target check, a successful scan leads to Builds. */
  lemma CreatesBuilds(config: FarmConfig, targetDir: string, sourceDirs: seq<string>, env: Env,
                      err: Option<Error>, effects: seq<Effect>)
    requires Creates(config, targetDir, sourceDirs, env, err, effects)
    requires env.target.Missing? || env.target.EmptyDir?
    requires Scan(sourceDirs, env.walk).Ok?
    ensures WellFormed(Scan(sourceDirs, env.walk).value)
    ensures Builds(config, targetDir, Scan(sourceDirs, env.walk).value, env, err, effects)
  {
    assert Scans(config, targetDir, sourceDirs, env, err, effects);
  }

  /** Into an existing empty target, with a filesystem that accepts every
      creation, a resolvable farm is built by performing its plan. */
  lemma BuildsPlan(config: FarmConfig, targetDir: string, files: map<string, SourceInfoS>, env: Env,
                   err: Option<Error>, effects: seq<Effect>, plan: seq<FarmAction>)
    requires WellFormed(files) && Builds(config, targetDir, files, env, err, effects)
    requires env.target.EmptyDir?
    requires forall p :: env.mkdir(p).None?
    requires forall oldname, newname :: config.linker(oldname, newname).None?
    requires Resolvable(files, targetDir, config) && IsPlan(files, targetDir, config, plan)
    ensures err.None?
    ensures effects == seq(|plan|, i requires 0 <= i < |plan| => Perform(plan[i].perform))
  {
    var actions: seq<FarmAction> :| && IsPlan(files, targetDir, config, actions)
                                    && err == Run(actions, config, env).err
                                    && effects == [] + Run(actions, config, env).effects;
    PlanUnique(files, targetDir, config, actions, plan);
    RunSucceeds(actions, config, env);
  }

  /** The walk of tree `a` in the example below: its root, directory `/dir`
      and file `/dir/f`. */
  function ExampleTreeA(): seq<Entry> {
    [Entry("a", true, false), Entry("a/dir", true, false), Entry("a/dir/f", false, false)]
  }

  /** The walk of tree `b`: its root, directory `/dir` and file `/dir/g`. */
  function ExampleTreeB(): seq<Entry> {
    [Entry("b", true, false), Entry("b/dir", true, false), Entry("b/dir/g", false, false)]
  }

  /** The groups the scan of the two trees yields. */
  function ExampleFarm(): map<string, SourceInfoS> {
    map[ "/dir" := [SourceInfo("/dir", "a/dir", true), SourceInfo("/dir", "b/dir", true)]
       , "/dir/f" := [SourceInfo("/dir/f", "a/dir/f", false)]
       , "/dir/g" := [SourceInfo("/dir/g", "b/dir/g", false)] ]
  }

  /** A walk of the source root and two more entries: the root is skipped
      and each of the others appends its record to its farm path's group. */
  lemma WalkOfThree(files: map<string, SourceInfoS>, sourceDir: string, root: Entry,
                    e1: Entry, k1: string, e2: Entry, k2: string)
    requires TrimPrefix(root.path, sourceDir) == ""
    requires TrimPrefix(e1.path, sourceDir) == k1 && k1 != ""
    requires TrimPrefix(e2.path, sourceDir) == k2 && k2 != ""
    ensures var g := files[k1 := Lookup(files, k1) + [RecordOf(sourceDir, e1)]];
            AddEntries(files, sourceDir, [root, e1, e2]) == g[k2 := Lookup(g, k2) + [RecordOf(sourceDir, e2)]]
  {
    assert [root, e1, e2][..2] == [root, e1] && [root, e1][..1] == [root] && [root][..0] == [];
    var g := files[k1 := Lookup(files, k1) + [RecordOf(sourceDir, e1)]];
    assert AddEntries(files, sourceDir, [root]) == AddEntry(files, sourceDir, root) == files;
    AddEntryAppends(files, sourceDir, e1, k1);
    assert AddEntries(files, sourceDir, [root, e1]) == AddEntry(files, sourceDir, e1) == g;
    AddEntryAppends(g, sourceDir, e2, k2);
  }

  /** The callback on an entry that is not the source root appends its record. */
  lemma AddEntryAppends(files: map<string, SourceInfoS>, sourceDir: string, e: Entry, farmPath: string)
    requires TrimPrefix(e.path, sourceDir) == farmPath && farmPath != ""
    ensures AddEntry(files, sourceDir, e) == files[farmPath := Lookup(files, farmPath) + [RecordOf(sourceDir, e)]]
  {
  }

  /** A scan of two trees whose walks succeed is the callback over the
      first tree's entries, then over the second's. */
  lemma ScanTwo(first: string, second: string, walk: Walker)
    requires walk(first).failure.None? && walk(second).failure.None?
    ensures Scan([first, second], walk) ==
              Ok(AddEntries(AddEntries(map[], first, walk(first).entries), second, walk(second).entries))
  {
    assert [first, second][..1] == [first] && [first][..0] == [];
    assert Scan([first], walk) == Ok(AddEntries(map[], first, walk(first).entries));
  }

  /** The farm paths of the example's entries. */
  lemma ExampleTrims()
    ensures TrimPrefix("a", "a") == "" && TrimPrefix("a/dir", "a") == "/dir" && TrimPrefix("a/dir/f", "a") == "/dir/f"
    ensures TrimPrefix("b", "b") == "" && TrimPrefix("b/dir", "b") == "/dir" && TrimPrefix("b/dir/g", "b") == "/dir/g"
  {
  }

  lemma ExampleScanA()
    ensures AddEntries(map[], "a", ExampleTreeA()) ==
              map["/dir" := [SourceInfo("/dir", "a/dir", true)], "/dir/f" := ExampleFarm()["/dir/f"]]
  {
    var d, f := SourceInfo("/dir", "a/dir", true), SourceInfo("/dir/f", "a/dir/f", false);
    ExampleTrims();
    WalkOfThree(map[], "a", ExampleTreeA()[0], ExampleTreeA()[1], "/dir", ExampleTreeA()[2], "/dir/f");
    assert ExampleTreeA() == [ExampleTreeA()[0], ExampleTreeA()[1], ExampleTreeA()[2]];
    assert Lookup(map[], "/dir") + [d] == [d];
    assert Lookup(map["/dir" := [d]], "/dir/f") + [f] == [f];
  }

  lemma ExampleScanB()
    ensures AddEntries(map["/dir" := [SourceInfo("/dir", "a/dir", true)], "/dir/f" := ExampleFarm()["/dir/f"]],
                       "b", ExampleTreeB()) == ExampleFarm()
  {
    var da, db := SourceInfo("/dir", "a/dir", true), SourceInfo("/dir", "b/dir", true);
    var f, g := SourceInfo("/dir/f", "a/dir/f", false), SourceInfo("/dir/g", "b/dir/g", false);
    var afterA := map["/dir" := [da], "/dir/f" := [f]];
    var afterB := map["/dir" := [da, db], "/dir/f" := [f]];
    var root, dir, file := Entry("b", true, false), Entry("b/dir", true, false), Entry("b/dir/g", false, false);
    ExampleTrims();
    WalkOfThree(afterA, "b", root, dir, "/dir", file, "/dir/g");
    assert RecordOf("b", dir) == db && RecordOf("b", file) == g;
    assert Lookup(afterA, "/dir") + [db] == [da, db];
    assert afterA["/dir" := [da, db]] == afterB;
    assert Lookup(afterB, "/dir/g") + [g] == [g];
    assert afterB["/dir/g" := [g]] == ExampleFarm();
  }

  /** The scan of the example trees. */
  lemma ExampleScan(walk: Walker)
    requires walk("a") == WalkResult(ExampleTreeA(), None)
    requires walk("b") == WalkResult(ExampleTreeB(), None)
    ensures Scan(["a", "b"], walk) == Ok(ExampleFarm())
  {
    ExampleScanA();
    ExampleScanB();
    ScanTwo("a", "b", walk);
  }

  /** The plan for the example: `/dir` first, then the two links. */
  function ExamplePlan(): seq<FarmAction> {
    [ CreateMkdirAction("farm", "/dir")
    , CreateLinkAction("farm", "a/dir/f", "/dir/f")
    , CreateLinkAction("farm", "b/dir/g", "/dir/g") ]
  }

  /** Each group of the example resolves to its action of the plan. */
  lemma ExampleResolves(config: FarmConfig)
    ensures WellFormed(ExampleFarm())
    ensures Resolve("farm", "/dir", ExampleFarm()["/dir"], config) == Emit(ExamplePlan()[0])
    ensures Resolve("farm", "/dir/f", ExampleFarm()["/dir/f"], config) == Emit(ExamplePlan()[1])
    ensures Resolve("farm", "/dir/g", ExampleFarm()["/dir/g"], config) == Emit(ExamplePlan()[2])
  {
    var farm := ExampleFarm();
    assert forall r: SourceInfo :: r in farm["/dir"] ==> r.isDir;
    UncontestedResolves(farm, "farm", config, "/dir");
    UncontestedResolves(farm, "farm", config, "/dir/f");
    UncontestedResolves(farm, "farm", config, "/dir/g");
  }

  /** The example's plan is in ascending order of location. */
  lemma ExampleAscending()
    ensures Ascending(ExamplePlan())
  {
    assert "/dir/f"[..4] == "/dir";
    PrefixLess("/dir", "/dir/f");
    assert "/dir/f"[..5] == "/dir/g"[..5];
    assert SmallerAt("/dir/f", "/dir/g", 5);
    var plan := ExamplePlan();
    AscendingThree(plan[0], plan[1], plan[2]);
    assert plan == [plan[0], plan[1], plan[2]];
  }

  /** Three actions whose locations increase step by step are ascending. */
  lemma AscendingThree(a0: FarmAction, a1: FarmAction, a2: FarmAction)
    requires Less(a0.location, a1.location) && Less(a1.location, a2.location)
    ensures Ascending([a0, a1, a2])
  {
    LessTransitive(a0.location, a1.location, a2.location);
  }

  /** Every group of the example that yields an action has it in the plan. */
  lemma ExampleCovered(config: FarmConfig)
    ensures WellFormed(ExampleFarm())
    ensures forall k :: k in ExampleFarm() ==>
              Resolve("farm", k, ExampleFarm()[k], config) in {Emit(ExamplePlan()[0]), Emit(ExamplePlan()[1]), Emit(ExamplePlan()[2])}
  {
    ExampleResolves(config);
    assert ExampleFarm().Keys == {"/dir", "/dir/f", "/dir/g"};
  }

  lemma ExamplePlanned(config: FarmConfig)
    ensures WellFormed(ExampleFarm())
    ensures Resolvable(ExampleFarm(), "farm", config)
    ensures IsPlan(ExampleFarm(), "farm", config, ExamplePlan())
  {
    ExampleResolves(config);
    ExampleAscending();
    assert ExampleFarm().Keys == {"/dir", "/dir/f", "/dir/g"};
    ThreeActionPlan(ExampleFarm(), "farm", config, ExamplePlan()[0], ExamplePlan()[1], ExamplePlan()[2]);
    assert ExamplePlan() == [ExamplePlan()[0], ExamplePlan()[1], ExamplePlan()[2]];
  }

  /** Three ascending actions, one for each of the three paths of a farm,
      are its plan. */
  lemma ThreeActionPlan(farm: map<string, SourceInfoS>, targetDir: string, config: FarmConfig,
                        a0: FarmAction, a1: FarmAction, a2: FarmAction)
    requires WellFormed(farm) && farm.Keys == {a0.location, a1.location, a2.location}
    requires Resolve(targetDir, a0.location, farm[a0.location], config) == Emit(a0)
    requires Resolve(targetDir, a1.location, farm[a1.location], config) == Emit(a1)
    requires Resolve(targetDir, a2.location, farm[a2.location], config) == Emit(a2)
    requires Ascending([a0, a1, a2])
    ensures Resolvable(farm, targetDir, config)
    ensures IsPlan(farm, targetDir, config, [a0, a1, a2])
  {
  }

  /** Performing the example's plan, step by step. */
  lemma ExamplePerformed()
    ensures seq(|ExamplePlan()|, i requires 0 <= i < |ExamplePlan()| => Perform(ExamplePlan()[i].perform)) ==
              [ Perform(MakeDir(Join("farm", "/dir")))
              , Perform(MakeLink("a/dir/f", Join("farm", "/dir/f")))
              , Perform(MakeLink("b/dir/g", Join("farm", "/dir/g"))) ]
  {
  }

  /** Merging the two trees into an existing empty target creates `/dir`
      once, then links `/dir/f` to tree `a`'s file and `/dir/g` to tree
      `b`'s, in that order, and succeeds, whatever the policy. */
  lemma MergeExample(config: FarmConfig, env: Env, err: Option<Error>, effects: seq<Effect>)
    requires Creates(config, "farm", ["a", "b"], env, err, effects)
    requires env.target == EmptyDir
    requires env.walk("a") == WalkResult(ExampleTreeA(), None)
    requires env.walk("b") == WalkResult(ExampleTreeB(), None)
    requires forall p :: env.mkdir(p).None?
    requires forall oldname, newname :: config.linker(oldname, newname).None?
    ensures err.None?
    ensures effects == [ Perform(MakeDir(Join("farm", "/dir")))
                       , Perform(MakeLink("a/dir/f", Join("farm", "/dir/f")))
                       , Perform(MakeLink("b/dir/g", Join("farm", "/dir/g"))) ]
  {
    ExampleScan(env.walk);
    CreatesBuilds(config, "farm", ["a", "b"], env, err, effects);
    ExamplePlanned(config);
    BuildsPlan(config, "farm", ExampleFarm(), env, err, effects, ExamplePlan());
    ExamplePerformed();
  }
}
