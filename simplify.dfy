/** The resolver and sequencer: turn the per-path groups of source records
    into a list of farm actions ordered by location. */
module Simplify {
  import opened Errors
  import opened Strings
  import opened Common
  import opened Conflict

  /** The farm configuration: a conflict policy and a link primitive. */
  datatype FarmConfig = FarmConfig(onConflict: ConflictHandler, linker: LinkHandler)

  /** The default configuration: every file conflict fails, links are made
      with the given symlink primitive. */
  function DefaultFarmConfig(symlink: LinkHandler): (r: FarmConfig)
    ensures r.linker == symlink
    ensures forall candidates :: r.onConflict(candidates) == Reply("", Some(FileConflict))
  {
    FarmConfig(NeverConflict, symlink)
  }

  /** What performing an action does: make a directory, or have the
      configured linker make `newname` a link to `oldname`. */
  datatype Op = MakeDir(path: Joined) | MakeLink(oldname: string, newname: Joined)

  /** One step of building the farm; `action` is its name, "mkdir" or "link". */
  datatype FarmAction = FarmAction(location: string, action: string, perform: Op)

  /** The action that links farm path `target` to `source`. */
  function CreateLinkAction(targetDir: string, source: string, target: string): (a: FarmAction)
    ensures a.location == target && a.action == "link"
    ensures a.perform == MakeLink(source, Join(targetDir, target))
  {
    FarmAction(target, "link", MakeLink(source, Join(targetDir, target)))
  }

  /** The action that creates the directory at farm path `target`. */
  function CreateMkdirAction(targetDir: string, target: string): (a: FarmAction)
    ensures a.location == target && a.action == "mkdir"
    ensures a.perform == MakeDir(Join(targetDir, target))
  {
    FarmAction(target, "mkdir", MakeDir(Join(targetDir, target)))
  }

  /** The fate of one farm path. */
  datatype Resolution = Emit(action: FarmAction) | Skip | Fail(error: Error)

  /** Every group holds at least one record. */
  predicate WellFormed(farm: map<string, SourceInfoS>) {
    forall k :: k in farm ==> |farm[k]| > 0
  }

  /** The decision the resolver takes for the group `sources` of
      `farmPath`; ResolveCases states it as facts about the records. */
  function Resolve(targetDir: string, farmPath: string, sources: SourceInfoS, config: FarmConfig): (r: Resolution)
    requires |sources| > 0
    ensures r.Emit? ==> r.action.location == farmPath
  {
    if Any(sources, SourceInfoIsDir) then
      if All(sources, SourceInfoIsDir) then Emit(CreateMkdirAction(targetDir, farmPath))
      else Fail(FileDirectoryConflict)
    else
      var reply := if |sources| > 1 then config.onConflict(SourceList(sources))
                   else Reply(sources[0].source, None);
      if reply.err.Some? then Fail(reply.err.value)
      else if reply.source != "" then Emit(CreateLinkAction(targetDir, reply.source, farmPath))
      else Skip
  }

  /** The resolver's decision table: a group of directories becomes one
      mkdir; a group mixing directories and files fails; a lone file is
      linked to its origin without consulting the policy; several files are
      put to the policy with all their origins in group order, whose error
      is returned as is and whose empty answer drops the path. */
  lemma ResolveCases(targetDir: string, farmPath: string, sources: SourceInfoS, config: FarmConfig)
    requires |sources| > 0
    ensures (forall i :: 0 <= i < |sources| ==> sources[i].isDir) ==>
              Resolve(targetDir, farmPath, sources, config) == Emit(CreateMkdirAction(targetDir, farmPath))
    ensures (exists i :: 0 <= i < |sources| && sources[i].isDir) &&
            (exists j :: 0 <= j < |sources| && !sources[j].isDir) ==>
              Resolve(targetDir, farmPath, sources, config) == Fail(FileDirectoryConflict)
    ensures |sources| == 1 && !sources[0].isDir ==>
              Resolve(targetDir, farmPath, sources, config) ==
                if sources[0].source == "" then Skip
                else Emit(CreateLinkAction(targetDir, sources[0].source, farmPath))
    ensures |sources| > 1 && (forall i :: 0 <= i < |sources| ==> !sources[i].isDir) ==>
              var reply := config.onConflict(SourceList(sources));
              Resolve(targetDir, farmPath, sources, config) ==
                if reply.err.Some? then Fail(reply.err.value)
                else if reply.source == "" then Skip
                else Emit(CreateLinkAction(targetDir, reply.source, farmPath))
  {
    AnyAllCases(sources, SourceInfoIsDir);
  }

  /** Sorted by location, ties allowed (what sort.Slice promises). */
  predicate Sorted(s: seq<FarmAction>) {
    forall i, j :: 0 <= i < j < |s| ==> !Less(s[j].location, s[i].location)
  }

  /** Strictly increasing locations: sorted, and no location twice. */
  predicate Ascending(s: seq<FarmAction>) {
    forall i, j :: 0 <= i < j < |s| ==> Less(s[i].location, s[j].location)
  }

  predicate DistinctLocations(s: seq<FarmAction>) {
    forall i, j :: 0 <= i < j < |s| ==> s[i].location != s[j].location
  }

  /** Inserts `x` into a list sorted by location, before the first element
      that does not sort before it. */
  function Insert(x: FarmAction, s: seq<FarmAction>): (r: seq<FarmAction>)
    ensures multiset(r) == multiset(s) + multiset{x}
  {
    if s == [] then [x]
    else if Less(s[0].location, x.location) then
      assert s == [s[0]] + s[1..];
      [s[0]] + Insert(x, s[1..])
    else [x] + s
  }

  /** An element of a list is at one of its positions. */
  lemma InMultisetAt(y: FarmAction, s: seq<FarmAction>) returns (k: nat)
    requires y in multiset(s)
    ensures k < |s| && s[k] == y
  {
    assert y in s;
    k :| 0 <= k < |s| && s[k] == y;
  }

  lemma {:induction false} InsertSorted(x: FarmAction, s: seq<FarmAction>)
    requires Sorted(s)
    ensures Sorted(Insert(x, s))
    decreases |s|
  {
    if s != [] {
      var r := Insert(x, s);
      if Less(s[0].location, x.location) {
        InsertSorted(x, s[1..]);
        var rest := Insert(x, s[1..]);
        assert r == [s[0]] + rest;
        forall j | 0 < j < |r| ensures !Less(r[j].location, s[0].location) {
          assert r[j] in multiset(rest);
          if r[j] == x {
            LessAsymmetric(s[0].location, x.location);
          } else {
            var k := InMultisetAt(r[j], s[1..]);
            assert s[k + 1] == r[j];
          }
        }
      } else {
        forall j | 1 < j < |r| ensures !Less(r[j].location, x.location) {
          NotLessTransitive(x.location, s[0].location, r[j].location);
        }
      }
    }
  }

  lemma {:induction false} InsertAscending(x: FarmAction, s: seq<FarmAction>)
    requires Ascending(s)
    requires forall i :: 0 <= i < |s| ==> s[i].location != x.location
    ensures Ascending(Insert(x, s))
    decreases |s|
  {
    if s != [] {
      var r := Insert(x, s);
      if Less(s[0].location, x.location) {
        InsertAscending(x, s[1..]);
        var rest := Insert(x, s[1..]);
        assert r == [s[0]] + rest;
        forall j | 0 < j < |r| ensures Less(s[0].location, r[j].location) {
          assert r[j] in multiset(rest);
          if r[j] != x {
            var k := InMultisetAt(r[j], s[1..]);
            assert s[k + 1] == r[j];
          }
        }
      } else {
        LessTotal(x.location, s[0].location);
        forall j | 1 < j < |r| ensures Less(x.location, r[j].location) {
          LessTransitive(x.location, s[0].location, r[j].location);
        }
      }
    }
  }

  /** sort.Slice by location, as insertion sort. */
  function SortByLocation(s: seq<FarmAction>): (r: seq<FarmAction>)
    ensures multiset(r) == multiset(s)
  {
    if s == [] then []
    else
      assert s == [s[0]] + s[1..];
      Insert(s[0], SortByLocation(s[1..]))
  }

  /** The sort's output is ordered by location, strictly when the input
      holds no location twice. */
  lemma {:induction false} SortByLocationSorted(s: seq<FarmAction>)
    ensures Sorted(SortByLocation(s))
    ensures DistinctLocations(s) ==> Ascending(SortByLocation(s))
    decreases |s|
  {
    if s != [] {
      var rest := SortByLocation(s[1..]);
      SortByLocationSorted(s[1..]);
      InsertSorted(s[0], rest);
      if DistinctLocations(s) {
        forall i | 0 <= i < |rest| ensures rest[i].location != s[0].location {
          assert rest[i] in multiset(s[1..]);
          var k := InMultisetAt(rest[i], s[1..]);
          assert s[k + 1] == rest[i];
        }
        InsertAscending(s[0], rest);
      }
    }
  }

  /** `actions` is the resolver's plan for `farm`: exactly one action for
      every path whose group resolves to an action, each the one it resolves
      to, in strictly ascending order of location. */
  ghost predicate IsPlan(farm: map<string, SourceInfoS>, targetDir: string, config: FarmConfig,
                         actions: seq<FarmAction>)
    requires WellFormed(farm)
  {
    && Ascending(actions)
    && (forall i :: 0 <= i < |actions| ==>
          && actions[i].location in farm
          && Resolve(targetDir, actions[i].location, farm[actions[i].location], config) == Emit(actions[i]))
    && (forall k :: k in farm && Resolve(targetDir, k, farm[k], config).Emit? ==>
          Resolve(targetDir, k, farm[k], config).action in actions)
  }

  /** No group's resolution fails. */
  ghost predicate Resolvable(farm: map<string, SourceInfoS>, targetDir: string, config: FarmConfig)
    requires WellFormed(farm)
  {
    forall k :: k in farm ==> !Resolve(targetDir, k, farm[k], config).Fail?
  }

  /** What simplifyFarm may return. The map is visited in an unspecified
      order, so when several groups fail the error may be any of theirs. */
  ghost predicate Simplified(farm: map<string, SourceInfoS>, targetDir: string, config: FarmConfig,
                             actions: seq<FarmAction>, err: Option<Error>)
    requires WellFormed(farm)
  {
    && (err.None? <==> Resolvable(farm, targetDir, config))
    && (err.Some? ==>
          && actions == []
          && exists k :: k in farm && Resolve(targetDir, k, farm[k], config) == Fail(err.value))
    && (err.None? ==> IsPlan(farm, targetDir, config, actions))
  }

  /** `actions`, in any order, holds exactly the actions that the groups of
      the paths in `done` resolve to, one per path. */
  ghost predicate Collected(farm: map<string, SourceInfoS>, targetDir: string, config: FarmConfig,
                            done: set<string>, actions: seq<FarmAction>)
    requires WellFormed(farm)
  {
    && done <= farm.Keys
    && DistinctLocations(actions)
    && (forall i :: 0 <= i < |actions| ==>
          && actions[i].location in done
          && Resolve(targetDir, actions[i].location, farm[actions[i].location], config) == Emit(actions[i]))
    && (forall k :: k in done && Resolve(targetDir, k, farm[k], config).Emit? ==>
          Resolve(targetDir, k, farm[k], config).action in actions)
  }

  /** Sorting what was collected from every path gives the plan. */
  lemma CollectedPlan(farm: map<string, SourceInfoS>, targetDir: string, config: FarmConfig,
                      actions: seq<FarmAction>)
    requires WellFormed(farm) && Collected(farm, targetDir, config, farm.Keys, actions)
    ensures IsPlan(farm, targetDir, config, SortByLocation(actions))
  {
    SortByLocationSorted(actions);
    var sorted := SortByLocation(actions);
    forall i | 0 <= i < |sorted|
      ensures sorted[i].location in farm
      ensures Resolve(targetDir, sorted[i].location, farm[sorted[i].location], config) == Emit(sorted[i])
    {
      assert sorted[i] in multiset(actions);
      var k := InMultisetAt(sorted[i], actions);
    }
    forall k | k in farm && Resolve(targetDir, k, farm[k], config).Emit?
      ensures Resolve(targetDir, k, farm[k], config).action in sorted
    {
      assert Resolve(targetDir, k, farm[k], config).action in multiset(actions);
    }
  }

  /** simplifyFarm: resolve every group, in whatever order the map yields
      them, stopping at the first failure; then sort by location. */
  method SimplifyFarm(uglyFarm: map<string, SourceInfoS>, targetDir: string, config: FarmConfig)
    returns (actions: seq<FarmAction>, err: Option<Error>)
    requires WellFormed(uglyFarm)
    ensures Simplified(uglyFarm, targetDir, config, actions, err)
  {
    actions := [];
    var remaining := uglyFarm.Keys;
    while remaining != {}
      invariant remaining <= uglyFarm.Keys
      invariant forall k :: k in uglyFarm && k !in remaining ==>
                  !Resolve(targetDir, k, uglyFarm[k], config).Fail?
      invariant Collected(uglyFarm, targetDir, config, uglyFarm.Keys - remaining, actions)
      decreases remaining
    {
      var farmPath :| farmPath in remaining;
      var sources := uglyFarm[farmPath];
      if Any(sources, SourceInfoIsDir) {
        if All(sources, SourceInfoIsDir) {
          actions := actions + [CreateMkdirAction(targetDir, farmPath)];
        } else {
          return [], Some(FileDirectoryConflict);
        }
      } else {
        var source := sources[0].source;
        var e: Option<Error> := None;
        if |sources| > 1 {
          var candidates := Sources(sources);
          assert candidates == SourceList(sources);
          var reply := config.onConflict(candidates);
          source, e := reply.source, reply.err;
          if e.Some? {
            return [], e;
          }
        }
        if source != "" {
          actions := actions + [CreateLinkAction(targetDir, source, farmPath)];
        }
      }
      remaining := remaining - {farmPath};
    }
    CollectedPlan(uglyFarm, targetDir, config, actions);
    actions := SortByLocation(actions);
    err := None;
  }

  /** A plan holds at most one action per farm path, and only for paths of
      the farm. */
  lemma PlanOnePerPath(farm: map<string, SourceInfoS>, targetDir: string, config: FarmConfig,
                       actions: seq<FarmAction>, i: nat, j: nat)
    requires WellFormed(farm) && IsPlan(farm, targetDir, config, actions)
    requires i < |actions| && j < |actions| && i != j
    ensures actions[i].location in farm
    ensures actions[i].location != actions[j].location
  {
    if i < j {
      LessIrreflexive(actions[i].location);
    } else {
      LessIrreflexive(actions[j].location);
    }
  }

  /** In a list in ascending order of location, an action whose location is
      a proper prefix of another's comes first. */
  lemma AscendingPrefixFirst(actions: seq<FarmAction>, i: nat, j: nat)
    requires Ascending(actions) && i < |actions| && j < |actions|
    requires IsStrictPrefix(actions[i].location, actions[j].location)
    ensures i < j
  {
    PrefixLess(actions[i].location, actions[j].location);
    if j < i {
      LessAsymmetric(actions[j].location, actions[i].location);
    }
  }

  /** The sequencing guarantee: in a plan, the action for a directory comes
      before the action for anything inside it. */
  lemma PlanDirectoriesFirst(farm: map<string, SourceInfoS>, targetDir: string, config: FarmConfig,
                             actions: seq<FarmAction>, i: nat, j: nat)
    requires WellFormed(farm) && IsPlan(farm, targetDir, config, actions)
    requires i < |actions| && j < |actions|
    requires IsAncestor(actions[i].location, actions[j].location)
    ensures i < j
  {
    AncestorLess(actions[i].location, actions[j].location);
    AscendingPrefixFirst(actions, i, j);
  }

  /** Two lists in ascending order of location with the same elements are
      the same list. */
  lemma {:induction false} AscendingUnique(a: seq<FarmAction>, b: seq<FarmAction>)
    requires Ascending(a) && Ascending(b)
    requires forall x :: x in a <==> x in b
    ensures a == b
    decreases |a|
  {
    assert a != [] ==> a[0] in b;
    assert b != [] ==> b[0] in a;
    if a != [] && b != [] {
      var i :| 0 <= i < |b| && b[i] == a[0];
      var j :| 0 <= j < |a| && a[j] == b[0];
      if i != 0 && j != 0 {
        LessAsymmetric(a[0].location, b[0].location);
      } else if i != 0 {
        LessIrreflexive(b[0].location);
      } else if j != 0 {
        LessIrreflexive(a[0].location);
      }
      assert a[0] == b[0];
      forall x ensures x in a[1..] <==> x in b[1..] {
        if x in a[1..] {
          var k :| 0 <= k < |a[1..]| && a[1..][k] == x;
          LessIrreflexive(a[0].location);
          assert x in b;
        }
        if x in b[1..] {
          var k :| 0 <= k < |b[1..]| && b[1..][k] == x;
          LessIrreflexive(b[0].location);
          assert x in a;
        }
      }
      AscendingUnique(a[1..], b[1..]);
      assert a == [a[0]] + a[1..] && b == [b[0]] + b[1..];
    }
  }

  /** The plan does not depend on the order in which the map was visited:
      there is only one. */
  lemma PlanUnique(farm: map<string, SourceInfoS>, targetDir: string, config: FarmConfig,
                   a: seq<FarmAction>, b: seq<FarmAction>)
    requires WellFormed(farm)
    requires IsPlan(farm, targetDir, config, a) && IsPlan(farm, targetDir, config, b)
    ensures a == b
  {
    forall x ensures x in a <==> x in b {
      if x in a {
        var i :| 0 <= i < |a| && a[i] == x;
        assert Resolve(targetDir, x.location, farm[x.location], config).action in b;
      }
      if x in b {
        var i :| 0 <= i < |b| && b[i] == x;
        assert Resolve(targetDir, x.location, farm[x.location], config).action in a;
      }
    }
    AscendingUnique(a, b);
  }

  /** A path that is a directory in every source tree holding it gets
      exactly one action: a mkdir at that path. */
  lemma PlanDirectoryGroup(farm: map<string, SourceInfoS>, targetDir: string, config: FarmConfig,
                           actions: seq<FarmAction>, k: string)
    requires WellFormed(farm) && IsPlan(farm, targetDir, config, actions)
    requires k in farm && forall r :: r in farm[k] ==> r.isDir
    ensures exists i :: 0 <= i < |actions| && actions[i] == CreateMkdirAction(targetDir, k)
    ensures forall i :: 0 <= i < |actions| && actions[i].location == k ==>
              actions[i] == CreateMkdirAction(targetDir, k)
  {
    ResolveCases(targetDir, k, farm[k], config);
    assert CreateMkdirAction(targetDir, k) in actions;
  }

  /** A path that is a directory in one source tree and not in another
      makes the resolution fail, with ErrFileDirectoryConflict unless some
      other path fails too and happens to be visited first. */
  lemma MixedGroupFails(farm: map<string, SourceInfoS>, targetDir: string, config: FarmConfig,
                        actions: seq<FarmAction>, err: Option<Error>, k: string)
    requires WellFormed(farm) && Simplified(farm, targetDir, config, actions, err)
    requires k in farm && (exists r :: r in farm[k] && r.isDir) && (exists r :: r in farm[k] && !r.isDir)
    ensures err.Some? && actions == []
    ensures (forall p :: p in farm && p != k ==> !Resolve(targetDir, p, farm[p], config).Fail?) ==>
              err == Some(FileDirectoryConflict)
  {
    var r1 :| r1 in farm[k] && r1.isDir;
    var r2 :| r2 in farm[k] && !r2.isDir;
    var i :| 0 <= i < |farm[k]| && farm[k][i] == r1;
    var j :| 0 <= j < |farm[k]| && farm[k][j] == r2;
    ResolveCases(targetDir, k, farm[k], config);
  }

  /** A group that is all directories, or a single record, never fails:
      directories are made, a lone file is linked to its origin. */
  lemma UncontestedResolves(farm: map<string, SourceInfoS>, targetDir: string, config: FarmConfig, k: string)
    requires WellFormed(farm) && k in farm
    requires |farm[k]| == 1 || forall r :: r in farm[k] ==> r.isDir
    ensures !Resolve(targetDir, k, farm[k], config).Fail?
    ensures farm[k][0].isDir ==> Resolve(targetDir, k, farm[k], config) == Emit(CreateMkdirAction(targetDir, k))
    ensures !farm[k][0].isDir && farm[k][0].source != "" ==>
              Resolve(targetDir, k, farm[k], config) == Emit(CreateLinkAction(targetDir, farm[k][0].source, k))
  {
    ResolveCases(targetDir, k, farm[k], config);
    AnyAllCases(farm[k], SourceInfoIsDir);
    if |farm[k]| != 1 {
      assert forall i :: 0 <= i < |farm[k]| ==> farm[k][i] in farm[k];
    }
  }

  /** When no path is shared between source trees, nothing fails: every
      directory is made once and every file is linked to its only origin. */
  lemma DisjointSources(farm: map<string, SourceInfoS>, targetDir: string, config: FarmConfig,
                        actions: seq<FarmAction>, err: Option<Error>)
    requires WellFormed(farm) && Simplified(farm, targetDir, config, actions, err)
    requires forall k :: k in farm ==> |farm[k]| == 1
    ensures err.None?
    ensures forall k :: k in farm && farm[k][0].isDir ==> CreateMkdirAction(targetDir, k) in actions
    ensures forall k :: k in farm && !farm[k][0].isDir && farm[k][0].source != "" ==>
              CreateLinkAction(targetDir, farm[k][0].source, k) in actions
  {
    forall k | k in farm
      ensures !Resolve(targetDir, k, farm[k], config).Fail?
      ensures farm[k][0].isDir ==> Resolve(targetDir, k, farm[k], config) == Emit(CreateMkdirAction(targetDir, k))
      ensures !farm[k][0].isDir && farm[k][0].source != "" ==>
                Resolve(targetDir, k, farm[k], config) == Emit(CreateLinkAction(targetDir, farm[k][0].source, k))
    {
      ResolveCases(targetDir, k, farm[k], config);
    }
  }

  /** Under the default policy a group fails in exactly two ways: several
      plain files (ErrFileConflict), or directories mixed with files
      (ErrFileDirectoryConflict). */
  lemma DefaultFailure(farm: map<string, SourceInfoS>, targetDir: string, symlink: LinkHandler, p: string)
    requires WellFormed(farm) && p in farm
    requires Resolve(targetDir, p, farm[p], DefaultFarmConfig(symlink)).Fail?
    ensures var e := Resolve(targetDir, p, farm[p], DefaultFarmConfig(symlink)).error;
            || (e == FileConflict && |farm[p]| > 1 && forall r :: r in farm[p] ==> !r.isDir)
            || (&& e == FileDirectoryConflict
                && (exists r :: r in farm[p] && r.isDir)
                && (exists r :: r in farm[p] && !r.isDir))
  {
    ResolveCases(targetDir, p, farm[p], DefaultFarmConfig(symlink));
    AnyAllCases(farm[p], SourceInfoIsDir);
  }

  /** With the default policy, a plain file present in two or more source
      trees makes the resolution fail: with ErrFileConflict, or with
      ErrFileDirectoryConflict when some other path mixes the two kinds and
      is visited first. With no such mixed path, the error is ErrFileConflict. */
  lemma NeverConflictFails(farm: map<string, SourceInfoS>, targetDir: string, symlink: LinkHandler,
                           actions: seq<FarmAction>, err: Option<Error>, k: string)
    requires WellFormed(farm) && Simplified(farm, targetDir, DefaultFarmConfig(symlink), actions, err)
    requires k in farm && |farm[k]| > 1 && forall r :: r in farm[k] ==> !r.isDir
    ensures err == Some(FileConflict) || err == Some(FileDirectoryConflict)
    ensures (forall p :: p in farm ==> (forall r :: r in farm[p] ==> r.isDir) || (forall r :: r in farm[p] ==> !r.isDir))
              ==> err == Some(FileConflict)
  {
    var config := DefaultFarmConfig(symlink);
    ResolveCases(targetDir, k, farm[k], config);
    assert !Resolvable(farm, targetDir, config);
    var p :| p in farm && Resolve(targetDir, p, farm[p], config) == Fail(err.value);
    DefaultFailure(farm, targetDir, symlink, p);
  }

  /** Under the skipping policy a group fails only when it mixes
      directories and files, and then with ErrFileDirectoryConflict. */
  lemma IgnoreBothFailure(farm: map<string, SourceInfoS>, targetDir: string, linker: LinkHandler, p: string)
    requires WellFormed(farm) && p in farm
    requires Resolve(targetDir, p, farm[p], FarmConfig(IgnoreBothConflict, linker)).Fail?
    ensures Resolve(targetDir, p, farm[p], FarmConfig(IgnoreBothConflict, linker)).error == FileDirectoryConflict
    ensures (exists r :: r in farm[p] && r.isDir) && (exists r :: r in farm[p] && !r.isDir)
  {
    ResolveCases(targetDir, p, farm[p], FarmConfig(IgnoreBothConflict, linker));
    AnyAllCases(farm[p], SourceInfoIsDir);
    var i :| 0 <= i < |farm[p]| && farm[p][i].isDir;
    var j :| 0 <= j < |farm[p]| && !farm[p][j].isDir;
    assert farm[p][i] in farm[p] && farm[p][j] in farm[p];
  }

  /** With the skipping policy, resolution fails only on a path that mixes
      directories and files, and always succeeds when there is none; a
      plain file present in two or more source trees gets no action; every
      other path gets the action it would get under any policy. */
  lemma IgnoreBothSkips(farm: map<string, SourceInfoS>, targetDir: string, linker: LinkHandler,
                        other: FarmConfig, actions: seq<FarmAction>, err: Option<Error>)
    requires WellFormed(farm)
    requires Simplified(farm, targetDir, FarmConfig(IgnoreBothConflict, linker), actions, err)
    ensures err.Some? ==> err == Some(FileDirectoryConflict)
    ensures err.Some? ==>
              exists k :: k in farm && (exists r :: r in farm[k] && r.isDir) && (exists r :: r in farm[k] && !r.isDir)
    ensures (forall p :: p in farm ==> (forall r :: r in farm[p] ==> r.isDir) || (forall r :: r in farm[p] ==> !r.isDir))
              ==> err.None?
    ensures err.None? ==>
              forall k :: k in farm && |farm[k]| > 1 && (forall r :: r in farm[k] ==> !r.isDir) ==>
                forall i :: 0 <= i < |actions| ==> actions[i].location != k
    ensures err.None? ==>
              forall k :: k in farm && (|farm[k]| == 1 || exists r :: r in farm[k] && r.isDir) ==>
                Resolve(targetDir, k, farm[k], FarmConfig(IgnoreBothConflict, linker)) ==
                Resolve(targetDir, k, farm[k], other)
  {
    var config := FarmConfig(IgnoreBothConflict, linker);
    if err.Some? {
      var p :| p in farm && Resolve(targetDir, p, farm[p], config) == Fail(err.value);
      IgnoreBothFailure(farm, targetDir, linker, p);
    } else {
      forall k, i | k in farm && |farm[k]| > 1 && (forall r :: r in farm[k] ==> !r.isDir) && 0 <= i < |actions|
        ensures actions[i].location != k
      {
        ResolveCases(targetDir, k, farm[k], config);
        assert forall j :: 0 <= j < |farm[k]| ==> !farm[k][j].isDir by {
          forall j | 0 <= j < |farm[k]| ensures !farm[k][j].isDir {
            assert farm[k][j] in farm[k];
          }
        }
      }
      forall k | k in farm && (|farm[k]| == 1 || exists r :: r in farm[k] && r.isDir)
        ensures Resolve(targetDir, k, farm[k], config) == Resolve(targetDir, k, farm[k], other)
      {
        ResolveCases(targetDir, k, farm[k], config);
        ResolveCases(targetDir, k, farm[k], other);
        AnyAllCases(farm[k], SourceInfoIsDir);
      }
    }
  }
}
