# gha-generate-matrix: the job creator, in Dafny

This project models `JobCreator`, the part of the GitHub Actions matrix generator that computes the CI job list of a Silverstripe module. Its behaviour is fixed by the data tables of `tests/JobCreatorTest.php`, and the model follows those tables:

- **Refs.** A git ref is cleaned (a pull-request ref `pulls/<branch>/<name>` stands for `<branch>`). It is then classified as a release line `M`, `M.m`, or `M.m.p` read as `M.m`, or as unresolved (`lines.dfy`).
- **Catalog.** The static reference data is a parameter of the model (`catalog.dfy`). It holds:
  - the PHP versions per CMS release line;
  - the lowest supported major;
  - the repositories that never build against the installer;
  - the lockstepped repositories and their major offsets;
  - the installer-to-module minor table;
  - the pinned tags.
- **Installer version.** `getInstallerVersion` is a priority-ordered decision table (`installer.dfy`). It yields `""`, `M.x-dev`, `M.m.x-dev` or a pinned tag. Its inputs are the repository, the branch, the parent branch hint, and composer.json's package type and core dependencies. The same module gives the CMS release line of a build.
- **PHP constraints.** The `php` constraint dialect of composer.json is parsed and evaluated (`constraints.dfy`). It covers `^`, `~`, comparisons, `*`, `M.*`, `M.m.*`, ranges written `A - B` or `A-B`, space-separated conjunctions, and `|` or `||` alternatives.
- **PHP per job slot.** The release line's PHP list is narrowed by the constraint and spread over the job slots (`php.dfy`).
  - On a list of three or more versions, slot k names position k; past the end it names the last position.
  - On a list of fewer than three versions, every slot after the first names the position before it, so slots 0 and 1 both name the first version (`SpreadTwo`).
  - A slot whose named version the constraint drops falls back to the nearest admitted version below it, else the nearest above it.
  - `phptable.dfy` proves the test table row by row over any three versions of one PHP major. `scenarios.dfy` carries such rows through whole builds, from the repository, branch and composer.json to the plan and the unit-test jobs.
- **Modules placed on no line.** A repository the catalog does not place on a release line (doorman on branch `5`) has no list of its own:
  - Without a constraint, or with a blank one, it uses the lowest major's list and the lowest major's layout.
  - With any other constraint it uses every supported PHP version the constraint admits, in order. It takes the lowest major's layout only when no higher major supports one of those versions.
  - This rule is rebuilt from the two doorman rows (tests/JobCreatorTest.php:2465-2481): `^p0` runs `[p0, p1, p2]` and `^h0` runs `[h0, h0, h1]`, both on the three-database layout.
- **Jobs.** `jobs.dfy` covers:
  - the job descriptors, with createJob's defaults;
  - the display names;
  - the fixed database layouts per major: mysql57 with `--prefer-lowest`, mariadb, mysql80 and mysql84 for the lowest major, and mariadb with `--prefer-lowest`, mysql80 and mysql84 for the others;
  - the single job when composer installs from the lock file;
  - the end-to-end jobs, one group per `@jobN` tag.
  
  The loops that build these lists are methods proved against the functions.
- **Matrix.** `creator.dfy` holds the `JobCreator` object, whose fields are the repository, its bare name, the branch, the parent branch, composer.json and the installer version. `CreateJson` records the target and resolves the installer version and the PHP plan. It then generates the jobs unless `dynamic_matrix` is false, appends the extra jobs in the order given, and drops repeated jobs, keeping the first occurrence.

File I/O is replaced by values passed in: composer.json, the installer's branch list, whether behat.yml exists, and the tag of each feature file.

Four choices of the model, each with the tables that support it:

- `~M.m` admits `M.m` and every later minor of `M`; only `~M.m.p` pins the minor (tests/JobCreatorTest.php:1937-1948).
- A constraint that cannot be parsed, such as `none`, fails the build instead of failing open (tests/JobCreatorTest.php:2483-2487).
- A constraint that admits none of the candidates fails the build. No test shows this case; the model chooses the same outcome as for an unparseable constraint.
- Extra jobs take createJob's defaults (mysql57, suite `all`, end-to-end suite `root`) rather than being fully specified (tests/JobCreatorTest.php:2449-2452).

## Model

| member | source | states |
|---|---|---|
| Lines.CleanBranch | tests/JobCreatorTest.php:21 | a ref that is not of the form `pulls/<branch>/<name>` is its own branch |
| Lines.CleanPullRef | tests/JobCreatorTest.php:177-178 | `pulls/<branch>/<name>` cleans to `<branch>` |
| Lines.Classify | tests/JobCreatorTest.php:163-181 | a branch belongs to a release line exactly when it has one to three numeric dot-separated parts; it has a minor exactly when there are two or more parts |
| Lines.ClassifyFormatLine | tests/JobCreatorTest.php:174-175 | a branch named `M` or `M.m` classifies as that line |
| Lines.ClassifyTag | tests/JobCreatorTest.php:2057 | a tag `M.m.p` classifies as the line `M.m` |
| Lines.ClassifyNonVersion | tests/JobCreatorTest.php:176 | a name holding a character that is neither a digit nor a dot (`burger`) is unresolved |
| Lines.ParseDevOfDev | tests/JobCreatorTest.php:174-175 | every branch alias `M.x-dev` / `M.m.x-dev` reads back as its line |
| Lines.LatestOfMajor | tests/JobCreatorTest.php:137-144 | the current minor of a major is a catalog key of that major and the greatest of them in natural order; there is one exactly when the major has a key |
| Lines.NaturalLeTotal | tests/JobCreatorTest.php:141 | the natural order of release-line keys is total |
| Catalog.FindRelease | tests/JobCreatorTest.php:57-69 | the PHP list of a line is found exactly when the table has that line, and it is that entry's list |
| Catalog.LowestCurrentMinor | tests/JobCreatorTest.php:137-144 | the current minor of the lowest major is a key of that major and no key of that major is later |
| Catalog.PhpFor | tests/JobCreatorTest.php:55-69 | a line takes its own catalog entry's PHP list; failing that, the entry of its bare major; failing that, the lowest major's entry; the list is non-empty, ascending and drawn from the supported versions |
| Catalog.MappedInstaller | tests/JobCreatorTest.php:192-198 | a module line maps to an installer line exactly when some installer entry lists it, and it maps to that entry's line |
| Constraints.ParseVer | tests/JobCreatorTest.php:1965-1968 | a version parses exactly when it has one to three numeric dot-separated parts |
| Constraints.SatUnconstrained | tests/JobCreatorTest.php:1905-1908 | the empty constraint admits every version |
| Constraints.ParseConstraint | tests/JobCreatorTest.php:1905-1908 | a constraint that parses has at least one alternative, and blank text parses as the constraint that admits every version |
| Constraints.Sat | tests/JobCreatorTest.php:1917-1924 | a constraint admits a version only when it has an alternative, and an alternative with no conditions admits every version |
| Constraints.ParsePiecesConcat | tests/JobCreatorTest.php:1917-1924 | the alternatives of a constraint are the alternatives of its pipe-separated pieces, in order |
| Constraints.DoublePipe | tests/JobCreatorTest.php:1404-1575 | `a \|\| b` and `a \| b` parse alike |
| Constraints.SingleToken | tests/JobCreatorTest.php:1925-1968 | a token without spaces or pipes is one alternative of one atom, or is rejected |
| Constraints.NoneRejected | tests/JobCreatorTest.php:2483-2487 | the constraint `none` does not parse |
| PhpResolution.ResolvePlan | tests/JobCreatorTest.php:2460-2552 | an unparseable constraint fails with its message; on a release line the plan is that line's list under the constraint, and it resolves exactly when the list holds an admitted version; on no line without a constraint it is the lowest major's list on the lowest major's layout; on no line with a constraint it is every supported version the constraint admits, on the lowest major's layout only when no higher major supports one of them, and it resolves exactly when some supported version is admitted; every slot runs a supported version the constraint admits |
| PhpResolution.PlanOnLine | tests/JobCreatorTest.php:1866-1893 | the plan of a line is its own list under the constraint, on the lowest major's layout exactly when the line is of the lowest major; it fails with the unsatisfiable message exactly when no version of the list is admitted |
| PhpResolution.PlanUnplaced | tests/JobCreatorTest.php:2465-2481 | a module on no line chooses among every supported version its constraint admits, on the lowest major's layout exactly when no higher major supports one of them; it fails exactly when no supported version is admitted |
| PhpResolution.PickIndex | tests/JobCreatorTest.php:1929-1960 | a position picks an admitted version: the highest admitted at or below it, and only when there is none the lowest admitted above it |
| PhpResolution.SlotIndex | tests/JobCreatorTest.php:1231-1317 | a slot names its own position, except that with fewer than three versions every slot after the first names the position before it |
| PhpResolution.PhpAt | tests/JobCreatorTest.php:1866-1893 | the PHP version of a slot is in the plan's list and satisfies its constraint |
| PhpResolution.Slots | tests/JobCreatorTest.php:1888-1892 | the per-job PHP list has one entry per slot, each that slot's version |
| PhpResolution.Filter | tests/JobCreatorTest.php:1899-1988 | the admitted versions are exactly the listed versions the constraint admits, in ascending order |
| PhpResolution.FilterAll | tests/JobCreatorTest.php:2465-2472 | a list whose every version is admitted passes the filter whole |
| PhpResolution.FilterSuffix | tests/JobCreatorTest.php:2473-2481 | when exactly the versions from some position on are admitted, the filter keeps that suffix |
| PhpResolution.PickKept | tests/JobCreatorTest.php:1905-1916 | an admitted version keeps its own slot |
| PhpResolution.PickMonotone | tests/JobCreatorTest.php:1899-1988 | a later slot never picks an earlier position |
| PhpResolution.PhpAtMonotone | tests/JobCreatorTest.php:1899-1988 | a later slot never runs an older PHP version |
| PhpResolution.SpreadAll | tests/JobCreatorTest.php:1905-1916 | with every one of three versions admitted the four slots run `[p0, p1, p2, p2]` |
| PhpResolution.SpreadWithoutLowest | tests/JobCreatorTest.php:1949-1952 | with the lowest of three dropped the slots run `[p1, p1, p2, p2]` |
| PhpResolution.SpreadWithoutHighest | tests/JobCreatorTest.php:1957-1960 | with the highest of three dropped the slots run `[p0, p1, p1, p1]` |
| PhpResolution.SpreadOnlyMiddle | tests/JobCreatorTest.php:1945-1948 | with only the middle version admitted every slot runs it |
| PhpResolution.SpreadTwo | tests/JobCreatorTest.php:1231-1317 | a line with two versions runs `[p0, p0, p1, p1]` |
| PhpTable.ParseRendered | tests/JobCreatorTest.php:1925-1928 | a rendered runtime version parses back as that version |
| PhpTable.ParseRenderedPatch | tests/JobCreatorTest.php:1965-1968 | `M.m.p` parses back with its patch |
| PhpTable.PrefixedToken | tests/JobCreatorTest.php:1925-1964 | an operator followed by a version is one atom of that operator |
| PhpTable.RangeToken | tests/JobCreatorTest.php:1985-1988 | `A-B` is the range from A to B |
| PhpTable.MajorWildToken | tests/JobCreatorTest.php:1973-1976 | `M.*` is any minor of M |
| PhpTable.MinorWildToken | tests/JobCreatorTest.php:1969-1972 | `M.m.*` is the minor `M.m` |
| PhpTable.Conjunction | tests/JobCreatorTest.php:1977-1984 | two space-separated tokens are one alternative of both atoms |
| PhpTable.Alternatives | tests/JobCreatorTest.php:1917-1924 | `a \|\| b` is two alternatives |
| PhpTable.AnyVersion | tests/JobCreatorTest.php:1905-1916 | no constraint, `*` and `*.*` run `[p0, p1, p2, p2]` |
| PhpTable.MajorWildcard | tests/JobCreatorTest.php:1973-1976 | `M.*` runs `[p0, p1, p2, p2]` |
| PhpTable.FullRange | tests/JobCreatorTest.php:1925-1964 | `>=p0`, `<=p2`, `^p0` and `~p0` run `[p0, p1, p2, p2]` |
| PhpTable.FromMiddle | tests/JobCreatorTest.php:1929-1952 | `>p0`, `^p1` and `~p1` run `[p1, p1, p2, p2]` |
| PhpTable.CaretWithPatch | tests/JobCreatorTest.php:1933-1936 | `^p1.n` runs `[p1, p1, p2, p2]` |
| PhpTable.RangeOtherSyntax | tests/JobCreatorTest.php:1985-1988 | `p1-p2` runs `[p1, p1, p2, p2]` |
| PhpTable.LessThanHighest | tests/JobCreatorTest.php:1957-1960 | `<p2` runs `[p0, p1, p1, p1]` |
| PhpTable.CaretMajorBelowHighest | tests/JobCreatorTest.php:1981-1984 | `^M <p2` runs `[p0, p1, p1, p1]` |
| PhpTable.PinnedMiddle | tests/JobCreatorTest.php:1945-1972 | `~p1.0`, `p1.n` and `p1.*` run p1 on every slot |
| PhpTable.RangeMiddle | tests/JobCreatorTest.php:1977-1980 | `>=p1 <p2` runs p1 on every slot |
| PhpTable.OtherMajorAlternative | tests/JobCreatorTest.php:1917-1924 | `^q \|\| ^p0` and `^q \|\| ^p1`, with q of another major, spread as `^p0` and `^p1` do |
| Installer.InstallerVersion | tests/JobCreatorTest.php:151-232 | the installer version is `""`, a pinned tag or a branch alias; a repository that never uses the installer gets `""`; otherwise, off the pinned tags, it is non-empty exactly when the catalog knows the repository, a module's composer.json names a core branch, or the parent branch is version-shaped |
| Installer.FromDependencyDev | tests/JobCreatorTest.php:2129-2133 | what a core dependency names is always a branch alias |
| Installer.FromDependencies | tests/JobCreatorTest.php:2129-2150 | what composer.json says comes from one scanned core dependency present in it |
| Installer.ReleaseLine | tests/JobCreatorTest.php:2221-2363 | a build against an installer branch uses that branch's line; only a repository the catalog does not know can have no line |
| Installer.NeverInstallerEmpty | tests/JobCreatorTest.php:163-172 | a repository that never uses the installer gets `""` on every branch |
| Installer.SameClassSameInstaller | tests/JobCreatorTest.php:163-198 | two branches of the same classification give the same installer version |
| Installer.PullRefSameAsBranch | tests/JobCreatorTest.php:174-179 | a pull-request ref gives the same installer version as its base branch |
| Installer.TagSameAsLine | tests/JobCreatorTest.php:2057 | a tag `M.m.p` gives the same installer version as `M.m` |
| Installer.LockstepBranch | tests/JobCreatorTest.php:174-190 | a lockstepped repository on `M` or `M.m` gets `(M+offset).x-dev` or `(M+offset).m.x-dev` |
| Installer.MappedInstallerWins | tests/JobCreatorTest.php:191-211 | a repository that is not lockstepped, on a line the installer table maps, builds against the mapped installer line whatever composer.json says, and that line is its release line |
| Installer.LockstepReleaseLine | tests/JobCreatorTest.php:174-190 | a lockstepped repository on `M` or `M.m` builds against that line moved by its offset, which is also its release line |
| Installer.UnknownUnplaced | tests/JobCreatorTest.php:2507-2552 | an unknown repository with a non-module composer.json and no version-shaped parent needs no installer and is placed on no release line |
| Installer.UnresolvedFallsBackToCurrentMinor | tests/JobCreatorTest.php:176-198 | a known repository on a name that is not version-shaped, with nothing in composer.json and no version-shaped parent, gets the current minor of the lowest major |
| Installer.ParentBranchLine | tests/JobCreatorTest.php:1750-1778 | a version-shaped parent branch gives its own line for a feature branch |
| Installer.NonModuleIgnoresManifest | tests/JobCreatorTest.php:2135-2137 | without a module package type composer.json changes nothing, and an unknown repository gets `""` |
| Installer.DevDependencyPassedThrough | tests/JobCreatorTest.php:2129-2130 | a `.x-dev` framework dependency is taken as it is |
| Installer.FirstDependencyDecides | tests/JobCreatorTest.php:2131-2133 | the first scanned dependency present that names a branch decides |
| Installer.CaretDependency | tests/JobCreatorTest.php:2131-2134 | `^M` names the bare major `M+offset` on a bare-major branch, else that major's current minor |
| Installer.CaretDependencyCurrentMinor | tests/JobCreatorTest.php:2131-2133 | `^M` on framework or cms, or `^(M-3)` on admin, gives the current minor of M when the installer has that branch |
| Installer.UnscannedIgnored | tests/JobCreatorTest.php:2148-2149 | packages outside the scan never change the finding |
| Installer.PluginsIgnored | tests/JobCreatorTest.php:2148-2149 | recipe-plugin and vendor-plugin dependencies never override the framework dependency |
| Jobs.MakeJob | tests/JobCreatorTest.php:36-54 | a job needs the full setup exactly when it builds against an installer branch, and keeps that installer version |
| Jobs.DefaultJob | tests/JobCreatorTest.php:36-54 | with no options a job tests nothing, on mysql57, with suites `all` and `root` |
| Jobs.Name | tests/JobCreatorTest.php:325-326 | when no part holds a space, the words of a job's name are its non-empty name parts, in order |
| Jobs.PreferLowestNamed | tests/JobCreatorTest.php:325 | a name carries `prf-low` exactly when composer runs with `--prefer-lowest` |
| Jobs.SlotJobs | tests/JobCreatorTest.php:307-408 | one job per slot, in layout order |
| Jobs.SlotJobFields | tests/JobCreatorTest.php:307-408 | a slot's job takes the slot's database, composer mode and PHP version |
| Jobs.PhpunitLayout | tests/JobCreatorTest.php:747-900 | four unit-test slots for the lowest major and three for the others, on positions 0 up, only the first with `--prefer-lowest` |
| Jobs.EndToEndLayout | tests/JobCreatorTest.php:637-716 | two end-to-end slots, on positions 0 and 3, neither with `--prefer-lowest`, on two different databases |
| Jobs.EndToEndDatabases | tests/JobCreatorTest.php:637-716 | the first end-to-end slot runs the composer-install job's database and the second the third unit-test slot's |
| Jobs.PhpunitLayoutShape | tests/JobCreatorTest.php:747-900 | four unit-test slots for the lowest major and three for the others, each database once, only the first with `--prefer-lowest` |
| Jobs.PhpunitMatrix | tests/JobCreatorTest.php:747-900 | the unit-test jobs: four or three, distinct databases, only the first with `--prefer-lowest`, each running unit tests only on its slot's PHP version |
| Jobs.PhpunitPhpNonDecreasing | tests/JobCreatorTest.php:2257-2278 | a later unit-test job never runs an older PHP version |
| Jobs.ComposerInstallJob | tests/JobCreatorTest.php:2221-2256 | the composer-install job runs unit tests only, without `--prefer-lowest`, on mysql57 for the lowest major and mysql80 otherwise |
| Jobs.ComposerInstallPhp | tests/JobCreatorTest.php:2239-2256 | it runs the platform PHP of composer.json when that is version-shaped, else the first slot's version |
| Jobs.TagNames | tests/JobCreatorTest.php:252-254 | one `jobN` name per feature file, in file order |
| Jobs.TagsToRun | tests/JobCreatorTest.php:248-265 | a feature file without a tag is an error with the test's message; otherwise the tags occur once each, exactly the files' tags, in the order of their first files, so distinct tags keep file order; no feature files means one untagged run |
| Jobs.EndToEndJobs | tests/JobCreatorTest.php:637-716 | there are two end-to-end jobs per tag |
| Jobs.EndToEndAppendTag | tests/JobCreatorTest.php:637-716 | the two jobs of one more tag follow the jobs of the earlier tags, which stay in place |
| Jobs.EndToEndGrouped | tests/JobCreatorTest.php:637-716 | job 2k+s is end-to-end slot s run with tag k |
| Jobs.EndToEndMatrix | tests/JobCreatorTest.php:637-716 | every end-to-end job runs behat only, without `--prefer-lowest`, with its group's tag, on its slot's database and PHP version |
| Jobs.GeneratedJobs | tests/JobCreatorTest.php:719-732 | generation fails exactly when behat runs and a feature file has no tag |
| Jobs.ComposerInstallSingleJob | tests/JobCreatorTest.php:2221-2256 | with composer installing from the lock file, exactly one unit-test job is generated |
| Jobs.BuildSlotJobs | tests/JobCreatorTest.php:307-408 | the loop builds the slot jobs |
| Jobs.BuildEndToEndJobs | tests/JobCreatorTest.php:637-716 | the nested loop builds the end-to-end jobs tag by tag |
| Jobs.ScanFeatureTags | tests/JobCreatorTest.php:248-265 | the scan of the feature files gives the tags to run, stopping at the first untagged file |
| Jobs.GenerateJobs | tests/JobCreatorTest.php:294-732 | the loops build the generated jobs |
| Util.Dedup | tests/JobCreatorTest.php:2415-2458 | de-duplication keeps exactly the elements of its input, each once, and is never longer |
| Util.DedupOrder | tests/JobCreatorTest.php:2441-2458 | de-duplication lists the elements in the order of their first occurrences |
| Util.DedupOfDistinct | tests/JobCreatorTest.php:2441-2458 | a list without repeats is left as it is |
| Util.RemoveDuplicates | tests/JobCreatorTest.php:2415-2458 | the loop keeps every job once, at its first place |
| Creator.RepoNameOf | tests/JobCreatorTest.php:20 | the bare name of `owner/name` is `name` |
| Creator.BuildPlan | tests/JobCreatorTest.php:1866-1893 | the plan of a build is the list of its release line under the php constraint of composer.json, and it resolves exactly when that list holds an admitted version; on no line it is the lowest major's list when composer.json has no constraint, and otherwise every supported version the constraint admits; an unparseable constraint fails the build |
| Creator.CreateJobSpec | tests/JobCreatorTest.php:11-82 | createJob fails exactly when the PHP plan does; otherwise the job runs a supported PHP version that the constraint admits |
| Creator.ExtraJobs | tests/JobCreatorTest.php:2449-2452 | one job per extra job specification, in order, on the first slot's PHP version |
| Creator.Combine | tests/JobCreatorTest.php:2415-2458 | the matrix has no repeated job and holds exactly the generated and the extra jobs, in the order of their first occurrence among the generated jobs followed by the extra jobs; it fails exactly when generation fails, with the same message |
| Creator.BuildMatrix | tests/JobCreatorTest.php:2020-2030 | the matrix has no repeated job; with the dynamic matrix off and no extra jobs it is empty |
| Creator.AppendExtraJobs | tests/JobCreatorTest.php:2415-2458 | the loop appends the extra jobs after the given jobs |
| Creator.AssembleMatrix | tests/JobCreatorTest.php:2415-2458 | the loops build the matrix from a resolved plan |
| Creator.AbsentDynamicFlagIsTrue | tests/JobCreatorTest.php:2020-2030 | an absent `dynamic_matrix` behaves like `true` |
| Creator.GeneratedFirst | tests/JobCreatorTest.php:2441-2458 | the de-duplicated generated jobs come first, in their order |
| Creator.ExtraJobsAppend | tests/JobCreatorTest.php:2449-2452 | one more extra job specification adds its job at the end of the extra jobs |
| Creator.CombineDuplicateExtra | tests/JobCreatorTest.php:2415-2458 | an extra job equal to one already in the matrix leaves the matrix unchanged |
| Creator.DuplicateExtraJobDropped | tests/JobCreatorTest.php:2415-2458 | an extra job equal to one already in the matrix changes nothing |
| Creator.MissingTagFails | tests/JobCreatorTest.php:719-732 | a feature file without a `@jobN` tag fails the build with the test's message |
| Creator.UnparseableConstraintFails | tests/JobCreatorTest.php:2483-2487 | a php constraint that does not parse fails the build |
| Creator.NoneConstraintFails | tests/JobCreatorTest.php:2483-2487 | the constraint `none` fails the build |
| Creator.UnknownRepositoryMatrix | tests/JobCreatorTest.php:1995-2030 | an unknown repository on a feature branch gets four jobs, or none with the dynamic matrix off |
| Creator.UnknownRepositoryPlan | tests/JobCreatorTest.php:1995-2030 | an unknown repository on a feature branch without composer.json needs no installer and runs the lowest major's PHP versions, unconstrained |
| Creator.CreateJobEnds | tests/JobCreatorTest.php:55-69 | a lockstepped repository's slot 0 runs its line's lowest PHP version and a slot past the end the highest |
| Scenarios.LockstepPlan | tests/JobCreatorTest.php:1866-1893 | the framework on a branch takes its line's own PHP list narrowed by composer.json's constraint, so every row of the constraint table over that list is a row of the build |
| Scenarios.LockstepFromMiddle | tests/JobCreatorTest.php:1929-1952 | the framework on a line of three versions with `>p0`, `^p1` or `~p1` runs `[p1, p1, p2, p2]` on its four unit-test slots |
| Scenarios.CaretFrom | tests/JobCreatorTest.php:2465-2481 | over supported versions of one PHP major, `^v` admits exactly the versions from `v` on, and a higher CMS major supports one of them |
| Scenarios.UnplacedCaret | tests/JobCreatorTest.php:2465-2481 | an unknown repository with `^v` needs no installer, and its plan is every supported version from `v` on, unconstrained, on the layout of the higher majors |
| Scenarios.UnplacedCaretOldest | tests/JobCreatorTest.php:2465-2472 | doorman with `^p0` runs `[p0, p1, p2]` on the three-database layout |
| Scenarios.UnplacedCaretNewest | tests/JobCreatorTest.php:2473-2481 | doorman with `^h0` runs `[h0, h0, h1]` on the three-database layout |
| Scenarios.OpenSlots | tests/JobCreatorTest.php:2465-2472 | with three or more versions and nothing to narrow by, slot k runs the k-th version |
| Scenarios.NarrowSlots | tests/JobCreatorTest.php:2473-2481 | with two versions and nothing to narrow by, three slots run `[v0, v0, v1]` |
| Scenarios.HigherMajorUnitJobs | tests/JobCreatorTest.php:2465-2481 | outside the lowest major the unit-test jobs are mariadb with `--prefer-lowest`, mysql80 and mysql84, on the plan's first three slots |
| Creator.JobCreator.constructor | tests/JobCreatorTest.php:18 | a new creator targets nothing and has no installer version |
| Creator.JobCreator.SetTarget | tests/JobCreatorTest.php:19-21 | the repository, its bare name and the cleaned branch are recorded, and nothing else changes |
| Creator.JobCreator.SetManifest | tests/JobCreatorTest.php:96-100 | composer.json is recorded and nothing else changes |
| Creator.JobCreator.GetInstallerVersion | tests/JobCreatorTest.php:85-114 | the installer version of the recorded target; `""` for a repository that never uses the installer |
| Creator.JobCreator.CreateJob | tests/JobCreatorTest.php:11-27 | the job of a slot over the recorded target; it needs the full setup exactly when there is an installer version |
| Creator.JobCreator.CreateJson | tests/JobCreatorTest.php:237-285 | the matrix of a request, with the target, the parent branch, composer.json and the installer version recorded |

## Left out

- The source of the `JobCreator` class is not part of this model. Its behaviour is rebuilt from the expectations of tests/JobCreatorTest.php; where no test pins a rule down, the model makes its own choice, and the list of choices above names it.
- YAML parsing and the input checks of `getInputs` (quoting of refs, malformed YAML) are not modelled. The request arrives as a validated `Inputs` value.
- File I/O is not modelled: composer.json, the installer branch list, behat.yml and the feature files arrive as values (`Env`). The JSON encoding of the output, where booleans become `'true'`/`'false'`, is also not modelled; jobs are records.
- The catalog values and the database constants come from code that is not part of this model (the supported-modules metadata). They are parameters of the model, and the test tables are proved over any catalog of the required shape.
- Jobs for linting, coverage, JS and documentation are not modelled. No expectation shows them, and what triggers them is not visible.
- The `composer_require_extra` and `name_suffix` fields are always `""` in the tables and are not part of `Job`.
- The PHPUnit suites are always `all`. Reading suites from phpunit.xml is not modelled.
- The second job of the pre-release major at tests/JobCreatorTest.php:1131-1134 uses the stable major's installer version. This depends on catalog contents the tables do not explain and is not modelled.
- Lines.LatestOfMajor: the test helper picks a major's keys by their first character (`substr($version, 0, 1)`). The model compares whole majors, which is the same for single-digit majors.
- PhpTable.MajorWildcard: the test writes the major as the first character of the lowest PHP version. The model uses the whole major, which is the same for single-digit majors.
- Installer.FromDependency: only the dependency forms the tables use are read, namely `.x-dev` branches and `^M`. Any other constraint on a core package says nothing.
- When the dynamic matrix is off, extra jobs are still appended. The tables only show the case without extra jobs, which gives no jobs.
- With `composer_install` on, the end-to-end jobs are still generated. No table combines the two.
- A lockstepped repository on a pinned tag (such as `5.0.0-beta2`) builds against the pinned version. The tag names no release line, so the model takes its PHP list from the current minor of the lowest major. No table shows the PHP versions of such a build.
- For a module placed on no line, `*` counts as a constraint like any other. It admits every supported version, so the build gets the layout of the higher majors; a missing or blank constraint gives the lowest major's list and layout instead. No table shows `*` on such a module, and the rule for modules placed on no line is rebuilt from the two doorman rows.
