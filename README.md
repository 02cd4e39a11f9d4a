# symlinkfarm in Dafny

A model of the core of go-symlinkfarm. This library merges several source
directory trees into one target tree (the *farm*). Every directory is
created in the farm, and every file becomes a symbolic link to its origin.

The core has three stages:

- **Scan** (`Farm.DetermineFarm`, `Farm.Scan`). Each source tree is walked.
  Every visited entry except the tree's root is filed under its *farm path*:
  the entry's path with the source root stripped off by `strings.TrimPrefix`.
  The result is a map from farm path to the group of records for that path,
  in source order. A record is a directory only when the entry is a
  directory and not a symbolic link. The first walk error, tagged with its
  source root, ends the scan.
- **Resolve and sequence** (`Simplify.SimplifyFarm`). Each group becomes an
  action, nothing, or an error:
  - a group of directories becomes one `mkdir`;
  - a group that mixes directories and files fails with
    ErrFileDirectoryConflict;
  - a lone file is linked to its origin;
  - several files go to the configured conflict policy.
  The actions are then sorted by location with Go's string order, so a
  directory's action always runs before the actions for the paths inside it.
- **Create** (`Farm.Create`). Create runs these steps in order:
  1. It refuses a target that exists and is not an empty directory.
  2. It scans and resolves.
  3. It creates the target directory if it was absent.
  4. It performs the actions in order, stopping at the first failure and
     undoing nothing.

The conflict policies are `Conflict.NeverConflict` (the default, always
ErrFileConflict) and `Conflict.IgnoreBothConflict` (link nothing).

Go's map iteration order is unspecified. `SimplifyFarm` therefore picks the
next farm path with a nondeterministic choice, and its specification
(`Simplify.Simplified`) is a relation:

- it fails exactly when some group fails, with the error of one of the
  failing groups;
- otherwise it returns the plan (`Simplify.IsPlan`).

`Simplify.PlanUnique` proves that there is only one plan. So, for conflict
policies that are functions of their candidates, a successful result does
not depend on the visiting order.

The filesystem is a value of type `Farm.Env`. It holds:

- the state of the target;
- the walker, which maps a source root to its visited entries and the error
  that ended the walk;
- the outcome of creating the target and of each `mkdir`.

The link primitive is the configuration's `LinkHandler`. `Create` returns
the error together with the list of mutations it attempted
(`Farm.Effect`). The specification of `Create` is `Farm.Creates`, together
with `Farm.Scans` and `Farm.Builds`.

Files:

- `strings.dfy`: `TrimPrefix`, Go's `<` on strings and its order lemmas, and
  `filepath.Join` kept as an uninterpreted pair.
- `errors.dfy`: `Option`, `Result` and the farm's error values.
- `common.dfy`: source records, `Any`, `All`, `Sources` and `sourceInfoIsDir`.
- `conflict.dfy`: the conflict handler type and the two built-in policies.
- `simplify.dfy`: actions, the resolver, the sort, `SimplifyFarm` and the plan
  lemmas.
- `farm.dfy`: the scanner, the execution of actions, `Create` and its
  lemmas, including the two-tree merge example.

In these places the model follows the code:

- The doc comment of `Create` says the target directory must not exist
  beforehand. The code also accepts an existing empty directory and then
  does not create it (`Farm.Creates`, `Farm.CreateEmptyTargetNoSources`).

- A farm path is whatever `TrimPrefix` leaves. It is not required to begin
  with a separator, and a path outside the source root keeps its full text.
- The conflict policy's error is returned exactly as the policy gave it. It
  is not wrapped in a separate "unresolvable conflict" kind; the default
  policy's error is ErrFileConflict.
- The actions are ordered with `sort.Slice`, which is not a stable sort.
  Since locations are distinct, the order is fully determined anyway
  (`Simplify.SortByLocationSorted`, `Simplify.PlanUnique`).
- A policy that answers with no winner and no error drops the path without
  any error.

## Model

| member | source | states |
|---|---|---|
| Common.Any | common.go:15-22 | true exactly when some record of the group satisfies the predicate |
| Common.All | common.go:24-31 | true exactly when every record of the group satisfies the predicate |
| Common.SourceList | common.go:33-39 | the origin paths of a group, one per record, in group order |
| Common.Sources | common.go:33-39 | the appending loop returns one origin path per record, in group order |
| Common.SourceInfoIsDir | common.go:41-43 | the predicate holds exactly when the record is a directory |
| Common.AllImpliesAny | common.go:15-31 | on a non-empty group, All implies Any |
| Common.AnyAllCases | common.go:15-31 | on a non-empty group, Any and All together mean all records match, Any without All means the group has both kinds, and not Any means none match |
| Conflict.NeverConflict | conflict.go:14-17 | the default policy names no winner and always answers ErrFileConflict |
| Conflict.IgnoreBothConflict | conflict.go:19-22 | the skipping policy names no winner and reports no error |
| Strings.Less | simplify.go:43-45 | Go's `<` on strings: true exactly when the first string is a proper prefix of the second, or is smaller at the first position where they differ |
| Strings.LexLessStep | simplify.go:43-45 | comparing two non-empty strings: different first characters decide, equal ones pass the comparison on to the tails |
| Strings.LexLessTail | simplify.go:43-45 | two strings with the same first character compare as their tails |
| Strings.TrimPrefix | farm.go:110 | with the prefix present, prefix plus result is the input; otherwise the input is unchanged; the result is empty exactly when the input is the prefix or empty |
| Strings.LessIrreflexive | simplify.go:43-45 | no location sorts before itself |
| Strings.LessAsymmetric | simplify.go:43-45 | two locations are never ordered both ways |
| Strings.LessTransitive | simplify.go:43-45 | the location order is transitive |
| Strings.LessTotal | simplify.go:43-45 | two different locations are always ordered one way or the other |
| Strings.NotLessTransitive | simplify.go:43-45 | "not after" is transitive |
| Strings.PrefixLess | simplify.go:43-45 | a proper prefix sorts before every extension of it |
| Strings.AncestorLess | simplify.go:43-45 | a directory path sorts before every path inside it |
| Simplify.DefaultFarmConfig | farm.go:27-31 | the default configuration links with the given symlink primitive and answers every file conflict with ErrFileConflict and no winner |
| Simplify.CreateLinkAction | simplify.go:58-67 | a "link" action at the farm path that makes the joined target path a link to the source |
| Simplify.CreateMkdirAction | simplify.go:69-77 | a "mkdir" action at the farm path that creates the joined target path |
| Simplify.Resolve | simplify.go:17-38 | an action produced for a group sits at that group's farm path |
| Simplify.ResolveCases | simplify.go:17-38 | the decision table: all directories gives one mkdir; directories mixed with files gives ErrFileDirectoryConflict; a lone file is linked to its origin, or dropped when the origin is empty; several files go to the policy with their origins in group order, and its error is returned as is, its empty answer drops the path, and its winner is linked |
| Simplify.Insert | simplify.go:43-45 | inserting adds exactly that action to the multiset of actions |
| Simplify.InsertSorted | simplify.go:43-45 | inserting into a list sorted by location keeps it sorted |
| Simplify.InsertAscending | simplify.go:43-45 | inserting a new location into a strictly ascending list keeps it strictly ascending |
| Simplify.SortByLocation | simplify.go:43-45 | the sort returns a permutation of its input |
| Simplify.SortByLocationSorted | simplify.go:43-45 | the sort's output is sorted by location, and strictly ascending when no location repeats |
| Simplify.CollectedPlan | simplify.go:16-45 | the actions collected from every group, once sorted, are exactly the plan |
| Simplify.SimplifyFarm | simplify.go:11-49 | fails exactly when some group fails, with that group's error and no actions; otherwise returns the plan: one action per group that yields one, each the group's own, in strictly ascending location order |
| Simplify.PlanOnePerPath | simplify.go:16-38 | a plan holds at most one action per farm path, and only for farm paths |
| Simplify.AscendingPrefixFirst | simplify.go:41-45 | in ascending order, an action whose location is a proper prefix of another's comes first |
| Simplify.PlanDirectoriesFirst | simplify.go:41-45 | in a plan, a directory's action precedes the action of every path inside it |
| Simplify.AscendingUnique | simplify.go:43-45 | two strictly ascending lists with the same elements are equal |
| Simplify.PlanUnique | simplify.go:16-45 | there is only one plan, so the result does not depend on the map's visiting order |
| Simplify.PlanDirectoryGroup | simplify.go:17-20 | a path that is a directory in every tree holding it gets exactly one action, a mkdir |
| Simplify.MixedGroupFails | simplify.go:21-24 | a path that is a directory in one tree and not in another makes the whole resolution fail with no actions, and the error is ErrFileDirectoryConflict when no other path fails |
| Simplify.UncontestedResolves | simplify.go:17-37 | a group of directories, or a lone record, never fails: the directories are made, and a lone file is linked to its origin |
| Simplify.DisjointSources | simplify.go:16-38 | with no path shared between trees, resolution succeeds, every directory gets its mkdir, and every file is linked to its unique origin |
| Simplify.DefaultFailure | simplify.go:17-34 | under the default policy a group fails only with ErrFileConflict, for several plain files, or with ErrFileDirectoryConflict, for a mixed group |
| Simplify.NeverConflictFails | simplify.go:26-34 | under the default policy a plain file in two or more trees makes resolution fail, with ErrFileConflict when no path mixes the kinds |
| Simplify.IgnoreBothFailure | simplify.go:21-37 | under the skipping policy a group fails only when it holds both a directory and a non-directory, and then with ErrFileDirectoryConflict |
| Simplify.IgnoreBothSkips | simplify.go:21-37 | under the skipping policy resolution fails only with ErrFileDirectoryConflict and only when some path mixes directories and files, and succeeds whenever no path does; a plain file shared by several trees gets no action; every other path resolves as under any policy |
| Farm.RecordOf | farm.go:122-126 | a record carries the stripped farm path and the full path, and is a directory exactly when the entry is a directory and not a symbolic link |
| Farm.AddEntry | farm.go:108-128 | the callback on the source root (empty farm path) leaves the map unchanged; on any other entry it adds exactly that farm path as a key if missing, appends the entry's record at the end of its group, and leaves every other group unchanged |
| Farm.AddEntryAppends | farm.go:117-126 | on an entry that is not the source root, the callback is the update of that farm path's group with the record appended |
| Farm.WalkOfThree | farm.go:107-128 | a walk of the root and two entries skips the root and appends each entry's record to its farm path's group, in visiting order |
| Farm.AddEntriesStep | farm.go:107-128 | the callback applied to one more entry is the callback on that entry after the earlier ones |
| Farm.CallbackStep | farm.go:117-126 | creating a missing group and then appending the record to it updates the map as the callback on that entry does |
| Farm.Visit | farm.go:107-130 | the callback loop over a walk's entries builds exactly the map of the callback applied to them in visiting order |
| Farm.Scan | farm.go:100-137 | the scan fails exactly when the walk of some source tree fails |
| Farm.ScanTwo | farm.go:106-136 | scanning two trees whose walks succeed runs the callback over the first tree's entries, then over the second's |
| Farm.ScanErrorPersists | farm.go:131-133 | once the scan of the first trees fails, the whole scan fails with that error |
| Farm.DetermineFarm | farm.go:100-137 | the nested loops build exactly the map of the scan; on a walk error, the error of the scan is returned with an empty map |
| Farm.AddEntriesGroup | farm.go:108-128 | the callback appends to a farm path's group exactly the records of the entries stripped to that path, in visiting order, and creates no other key |
| Farm.ScanGroup | farm.go:106-134 | each group of the scan is exactly the records for that path from every tree, trees in the given order, and a path is a key exactly when it has a record |
| Farm.RecordsInOrigin | farm.go:108-126 | every record one walk adds for a path comes from one of its entries stripped to that path, and the root is never a key |
| Farm.GroupOfOrigin | farm.go:106-126 | every record of a group comes from an entry of some source tree stripped to that path |
| Farm.ScanRecords | farm.go:110-126 | every record of a successful scan carries its group's farm path, the full path of a visited entry, and that entry's directory flag; the root is never a key |
| Farm.ScanWellFormed | farm.go:113-122 | every group of a successful scan is non-empty |
| Farm.ScanFails | farm.go:106-134 | the scan fails exactly when some walk fails, with the first failing tree's error tagged with its root |
| Farm.ActionOutcome | simplify.go:58-77 | performing a mkdir action calls os.Mkdir on the joined target path, and performing a link action calls the configured linker from the origin to the joined target path |
| Farm.Run | farm.go:88-94 | the run attempts at most every action; with no error it attempted all of them; an error means at least one action was attempted |
| Farm.RunStep | farm.go:88-94 | one step of the loop: the action at the current position is performed, and its error stops the run or the rest of the actions follow |
| Farm.RunStopsAtFirstFailure | farm.go:88-94 | the actions attempted are a prefix of the plan in plan order; all but the last succeeded; the error is the last one's; with no error every action ran |
| Farm.RunPerformsOnly | farm.go:88-94 | running actions only performs actions |
| Farm.RunSucceeds | farm.go:88-97 | when the filesystem accepts every creation, every action is performed in order and there is no error |
| Farm.Execute | farm.go:88-97 | the execution loop attempts exactly the actions the run attempts and returns its error |
| Farm.CreatesByRun | farm.go:76-97 | performing the plan after a successful scan and resolution is an allowed outcome of Create |
| Farm.Create | farm.go:36-98 | a non-empty target fails with ErrTargetExist and an unopenable one with its error, before anything else; a scan error and a resolution error are returned with nothing created; otherwise the target is created when absent (its failure stops everything) and the plan is performed in order up to the first failure |
| Farm.CreateTargetNotEmpty | farm.go:39-54 | a non-empty target fails with ErrTargetExist, and nothing is scanned or created |
| Farm.CreateEmptyTargetNoSources | farm_test.go:22-27 | an empty existing target with no source trees succeeds and does nothing |
| Farm.CreateTargetLast | farm.go:76-85 | the target is created only when it was absent, only as the first mutation, and only after the scan and the resolution succeeded |
| Farm.CreateMixedPathFails | farm_test.go:72-85 | a path that is a directory in one tree and a file in another fails Create with nothing created, whatever the policy, and with ErrFileDirectoryConflict when no other path fails |
| Farm.CreateSharedFileFails | farm_test.go:57-70 | with the default configuration, a plain file shared by two trees fails Create with nothing created, with ErrFileConflict when no path mixes the kinds |
| Farm.CreateNoConflictSucceeds | farm_test.go:43-55 | when every path is either a directory everywhere or held by a single tree, and the filesystem accepts every creation, Create succeeds, makes every directory and links every lone file to its origin |
| Farm.BuildsNoConflict | farm.go:68-97 | the same success, stated after the scan |
| Farm.CreatesBuilds | farm.go:59-85 | past the target check, a successful scan gives well-formed groups and leads to the resolution and execution stage |
| Farm.BuildsRun | farm.go:68-97 | a resolvable build past the target's creation performs a plan: the effects are the target's creation when it was absent followed by the run of that plan, and the error is the run's |
| Farm.BuildsPerforms | farm.go:68-97 | with nothing failing to resolve and every creation accepted, the build succeeds and performs the action of every group that yields one |
| Farm.PlanPerformed | farm.go:88-94 | once every action of the plan is performed, so is the action of every group that yields one |
| Farm.BuildsPlan | farm.go:68-97 | into an existing empty target, with every creation accepted, a resolvable farm is built by performing exactly its plan, in order |
| Farm.ExampleTrims | farm.go:110-115 | the example's entries strip to the root (empty), `/dir`, and `/dir/f` or `/dir/g` |
| Farm.ExampleScanA | farm.go:106-128 | walking tree `a` (root, `/dir`, `/dir/f`) files `/dir` and `/dir/f` with their records |
| Farm.ExampleScanB | farm.go:106-128 | then walking tree `b` (root, `/dir`, `/dir/g`) appends b's `/dir` record and adds `/dir/g` |
| Farm.ExampleScan | farm.go:100-137 | the scan of the two trees is the three groups `/dir` (from both trees), `/dir/f` and `/dir/g` |
| Farm.ExampleResolves | simplify.go:16-38 | each group of the example resolves to its action: mkdir `/dir`, link `/dir/f` to a's file, link `/dir/g` to b's file |
| Farm.AscendingThree | simplify.go:41-45 | three actions whose locations increase step by step are in ascending order |
| Farm.ExampleAscending | simplify.go:41-45 | the example's actions are in strictly ascending location order |
| Farm.ExampleCovered | simplify.go:16-38 | every group of the example resolves to one of the plan's three actions |
| Farm.ThreeActionPlan | simplify.go:16-45 | for a farm of three paths, three ascending actions, each its path's resolution, are the plan, and nothing fails |
| Farm.ExamplePlanned | simplify.go:11-49 | the example's plan is mkdir `/dir`, then link `/dir/f`, then link `/dir/g` |
| Farm.ExamplePerformed | farm.go:88-94 | performing the example's plan is a mkdir of `/dir` followed by the two links, in that order |
| Farm.MergeExample | farm.go:36-98 | merging the two trees into an empty target creates `/dir` once, then links `/dir/f` to a's file and `/dir/g` to b's file, in that order, and succeeds |

## Left out

- The directory walk: godirwalk is a parameter (`Farm.Walker`). It yields the entries it hands to the callback, then the error that ended the walk. Its traversal order and its symlink handling are not modelled beyond the entry's flags.
- Filesystem calls are oracles in `Farm.Env`:
  - `os.Lstat`, `os.Open` and `Readdirnames` are summarised by the target's state (`Farm.TargetState`);
  - `os.Mkdir` of the target and of each farm directory gives an outcome;
  - the link primitive is the configuration's `LinkHandler`.
  The farm's own changes to the filesystem are a trace (`Farm.Effect`), not a filesystem state.
- `filepath.Join`: kept as the uninterpreted pair `Strings.Join(dir, name)`. Path cleaning is not modelled.
- Logging (loggo): not modelled. It has no effect on results.
- Error wrapping: `errors.WithStack` is the identity in the model. `errors.Wrap` is `Errors.Tagged(context, cause)`. Stack traces are not modelled.
- `sort.Slice`: its algorithm is replaced by an insertion sort (`Simplify.SortByLocation`). Only the sorted permutation it yields is modelled. Since farm paths are distinct, this result is unique.
- An action's `Perform` closure is the data `Simplify.Op`. It is run against the configuration's linker and `Env.mkdir` when executed. `createLinkAction`'s linker parameter is therefore not stored in the action. `Create` only ever passes the configuration's own linker, so this is the same linker.
- An empty group is excluded by `Simplify.WellFormed`, a precondition of `SimplifyFarm`. In Go, an empty group would panic at `sources[0]`. `determineFarm` never builds one (`Farm.ScanWellFormed`).
- Go map iteration order: a nondeterministic choice, as described above.
- `Conflict.ConflictHandler`: a conflict policy is modelled as a function of its candidate list alone. Go accepts any `func(...string) (string, error)`, including a closure with hidden state or randomness; such handlers are not modelled, and for them which path is linked and which group fails can depend on the map's visiting order. The two built-in policies are pure.
- Strings are sequences of characters. Go's byte-wise `<` on valid UTF-8 agrees with the code-point order used here. Go strings and Linux file names can hold byte sequences that are not valid UTF-8, which a Dafny `string` cannot represent; for such names, Go's byte-wise `<` and `strings.TrimPrefix` have no counterpart in this model.
- The filesystem oracles do not depend on state: `Env.mkdir` and the linker answer the same for a path whatever was created before. The success lemmas (`Farm.RunSucceeds`, `Farm.BuildsPlan`, `Farm.CreateNoConflictSucceeds`, `Farm.MergeExample`) therefore assume every creation succeeds in any order, and `Simplify.PlanDirectoriesFirst` is proved about the plan's order only; it is not linked to the success of executing it.
- `Farm.AddEntries`: the fold over a walk's entries has no contract of its own. `Farm.AddEntry` states one step, and `Farm.AddEntriesGroup` states what the whole fold does to each group.
