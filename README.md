# Skill-package toolchain: a Dafny model

This project models the core of the `coding-agent-skills` repository. That
core is the toolchain that creates, validates, indexes and tests *skills*:
directories under `skills/.curated`, `skills/.experimental` or `skills/.system`,
each with a `SKILL.md` file. A `SKILL.md` opens with a YAML front-matter block
between two `---` delimiters. The model covers:

- **The front-matter parsers.** `tools/validate_skills.py` splits `SKILL.md`
  on `---` and checks the declared name against the directory name and the
  naming pattern. It collects diagnostics and exits 0 or 1.
  `tools/build_index.py` loads every skill, derives the tier from the parent
  directory, and sorts the index by `(tier, name)`.
- **The scaffold and companion-test generators.** `tools/new_skill.py` holds
  the name rule, the `SKILL.md` template and the target-directory rule.
  `tools/generate_skill_tests.py` holds the skill-directory filter, the test
  file name, the rendered test, and the create/skip loop.
- **The report data model of `skillkit`.** `src/skillkit/report.py` covers
  exit codes, `Action`/`Diagnostic`/`Report`, `to_dict`, `emit_report` and
  `action_from_proc`. `src/skillkit/detect.py` covers ordered build-system
  detection. The decision logic of the `git-status` and
  `detect-build-system` scripts is modelled too.
- **Two pieces of the demo application.** The argv filter and the
  save/restore of `sys.argv` in `src/clean_interfaces/main.py`. The
  validators, `otel_export_enabled`, `model_dump` and singleton accessors of
  `src/clean_interfaces/utils/settings.py`.

Shared modules model the Python semantics the tools rely on:

- `Text`: `str.startswith`, `str.find`, `str.split(sep, maxsplit)`,
  `str.join`, `str.lstrip`, and ASCII `upper`/`lower`.
- `Ordering`: string and tuple ordering, and `sorted(key=...)`.
- `Paths`: a path is its list of components.
- `PyValues`: dicts with insertion-ordered string keys, and the built-in
  exceptions.

The filesystem, subprocesses and the YAML parser are inputs:

- Directory listings, file contents and existence checks are given as
  sequences and sets.
- The process results of the `git` commands are given values.
- `yaml.safe_load` is a function parameter (`YamlLoader`).
- `json.dumps` is a function parameter (`JsonDumper`).

Code that mutates state is modelled imperatively:

- The loops of `validate_skills.main`, `iter_skill_dirs`,
  `generate_skill_tests.main`, `detect_build_system` and the argv filter are
  methods. Each is proved equal to a recursive specification function, whose
  properties are proved as lemmas.
- The `instance` class attributes of the settings module are fields of a
  `Registry` class.
- `sys.argv` is a field of an `Interpreter` class.

## Model

| member | source | states |
|---|---|---|
| `Text.FindIsFirst` | tools/validate_skills.py:32 | `str.find` returns the first position where the separator occurs |
| `Text.Split` | tools/validate_skills.py:32 | `split(sep, maxsplit)` gives at least one part and at most `maxsplit + 1` |
| `Text.SplitJoin` | tools/validate_skills.py:32 | joining the parts of a split with the separator gives back the original text |
| `Text.JoinSplit` | src/skillkit/report.py:84 | splitting a join of at least one part, none of which contains the separator's first character, with a non-empty separator gives back the parts |
| `Text.LStrip` | tools/build_index.py:42 | `lstrip(c)` removes exactly the leading run of `c`: the result is a suffix that does not start with `c`, and everything removed was `c` |
| `Ordering.KeyLeTotal` | tools/build_index.py:54 | tuple-of-strings ordering is total |
| `Ordering.KeyLeTransitive` | tools/build_index.py:54 | tuple-of-strings ordering is transitive |
| `Ordering.SortBySorts` | tools/build_index.py:54 | `sorted(key=...)` returns a sequence ordered by key with the same elements (as a multiset) and the same length |
| `PyValues.Get` | tools/validate_skills.py:40-41 | `dict.get` finds a value exactly when some entry has the key, and the value found is stored under that key |
| `PyValues.GetAt` | src/skillkit/report.py:52-58 | the entry at a position whose key occurs at no earlier position is what `get` finds |
| `NewSkill.NameBodyIsShape` | tools/new_skill.py:10 | the groups-joined-by-hyphens reading of the pattern agrees with the rule in words: non-empty, only `[a-z0-9-]`, no leading, trailing or doubled hyphen |
| `NewSkill.ValidateName` | tools/new_skill.py:14-21 | over 64 characters fails with the length message (checked first); otherwise a pattern mismatch fails with the pattern message; passes exactly when both hold |
| `NewSkill.AcceptedNameLength` | tools/new_skill.py:10-21 | every accepted name has 1 to 64 characters |
| `NewSkill.TrailingNewlineAccepted` | tools/new_skill.py:19 | as written, `"a\n"` passes `validate_name` although it breaks the rule in words |
| `NewSkill.ValidateNameStrict` | tools/new_skill.py:10-21 | the full-match variant passes exactly when the name has at most 64 characters and the shape of the rule; accepted names hold no newline or underscore |
| `NewSkill.StrictImpliesAsWritten` | tools/new_skill.py:10-21 | every name the strict check accepts is accepted by the check as written |
| `NewSkill.TemplateSplitsAtHead` | tools/new_skill.py:29-34 | the template is its first three lines followed by the optional compatibility line, `---` and the body |
| `NewSkill.TemplateLayout` | tools/new_skill.py:24-43 | the template starts with `---`, the name line and the description line; a `compatibility:` line follows exactly when compatibility is truthy, right before the closing `---`; the `# name` heading follows the closing delimiter |
| `NewSkill.TargetDir` | tools/new_skill.py:104 | the target is `skills/.{tier}/{name}`: three components, the last is the name and its parent is the dotted tier |
| `NewSkill.ScaffoldFiles` | tools/new_skill.py:66-86 | three files are written, all under the target; the first is `SKILL.md` with the template |
| `NewSkill.Scaffold` | tools/new_skill.py:89-114 | an invalid name fails with `validate_name`'s message; an existing target stops the command before writing; files are created exactly when the name is valid and the target is new, and they are the three scaffold files under the target |
| `ValidateSkills.LoadFrontMatter` | tools/validate_skills.py:25-45 | ValueError exactly when the text does not open with `---` ("missing front matter") or splits into fewer than three parts ("front matter not closed"); TypeError for a non-mapping body ("front matter invalid") or a missing string name/description ("requires name and description"); on success the name and description are the block's string fields |
| `ValidateSkills.TwoDelimitersGiveThreeParts` | tools/validate_skills.py:29-35 | text of the form `---x---y` passes both delimiter checks |
| `ValidateSkills.BlockBetweenDelimiters` | tools/validate_skills.py:32-36 | the YAML block handed to the loader is exactly the text between the first two delimiters |
| `ValidateSkills.ValidateSkillDir` | tools/validate_skills.py:56-79 | raises exactly when loading raises something other than ValueError; otherwise at most two diagnostics, all at level "error" |
| `ValidateSkills.StructuralErrorIsOneDiagnostic` | tools/validate_skills.py:59-63 | a ValueError from loading becomes exactly one error diagnostic carrying its message |
| `ValidateSkills.NameChecks` | tools/validate_skills.py:65-79 | no diagnostic exactly when the name equals the directory name and matches NAME_RE; a mismatch is reported first, an invalid name last; one diagnostic per failed check |
| `ValidateSkills.ScaffoldPassesDelimiterChecks` | tools/validate_skills.py:29-35 | every `build_skill_md` output opens with `---`, splits into three parts and never raises ValueError in the loader |
| `ValidateSkills.ScaffoldBlockIsLoaded` | tools/validate_skills.py:32-36 | for arguments free of `---`, the loader receives exactly the template's front-matter block |
| `ValidateSkills.ScaffoldValidates` | tools/validate_skills.py:56-79 | a scaffold with a valid name, in the directory of that name, validates with no diagnostics (given a YAML loader that reads back name and description) |
| `ValidateSkills.CleanSkillValidates` | tools/validate_skills.py:56-79 | a well-formed skill whose declared name matches its directory and NAME_RE yields no diagnostics |
| `ValidateSkills.Run` | tools/validate_skills.py:87-102 | the loop over the found skills gives the outcome of the recursive `ValidateSkills.MainSpec`: the first exception raised, or exit 1 with each diagnostic on a line, or exit 0 with "All skills valid" |
| `ValidateSkills.CollectFailurePropagates` | tools/validate_skills.py:94-95 | once a skill raises, the loop's result is that exception |
| `ValidateSkills.CollectSucceeds` | tools/validate_skills.py:94-95 | the loop completes exactly when no skill raises |
| `ValidateSkills.CollectClean` | tools/validate_skills.py:94-95 | the loop yields no diagnostic exactly when every skill is clean |
| `ValidateSkills.MainExitCode` | tools/validate_skills.py:97-102 | exit 0 with "All skills valid" exactly when every skill is clean; exit 1 exactly when none raises and some skill has a diagnostic |
| `BuildIndex.TierOf` | tools/build_index.py:42 | the tier is the parent directory's name with leading dots removed; none for the empty path |
| `BuildIndex.LoadMeta` | tools/build_index.py:26-48 | ValueError "invalid front matter" exactly when there are fewer than three parts; TypeError for a non-mapping body or a missing string name/description; IndexError with message "0" (from `parents[0]`) for the path with no parent; on success the entry carries the block's name and description, the path and the tier |
| `BuildIndex.LeadingTextSplit` | tools/build_index.py:29 | text before the first `---` (free of `---`) only changes the first split part |
| `BuildIndex.LeadingTextIgnored` | tools/build_index.py:28-33 | `load_meta` does not check the leading delimiter: leading text is ignored |
| `BuildIndex.LoadAll` | tools/build_index.py:53 | a successful load has one entry per skill |
| `BuildIndex.LoadAllCharacterized` | tools/build_index.py:53 | loading succeeds exactly when every skill loads, entry by entry in order; a failure is the first failing skill's exception, so one invalid skill aborts the index |
| `BuildIndex.BuildIsSortedPermutation` | tools/build_index.py:51-54 | the index exists exactly when every skill loads; it has one entry per skill, is a permutation of the loaded entries, contains every skill's entry, and is ordered by `(tier, name)` |
| `BuildIndex.IndexOrder` | tools/build_index.py:54 | any two index entries are in tier order, and in name order within a tier |
| `BuildIndex.ScaffoldTierRoundTrip` | tools/build_index.py:42 | a skill scaffolded under a tier is indexed with that tier's name |
| `GenerateSkillTests.IterSkillDirs` | tools/generate_skill_tests.py:11-18 | the loop keeps, in order, the parent of every found `SKILL.md` with no `__pycache__` component |
| `GenerateSkillTests.SkillDirsCharacterized` | tools/generate_skill_tests.py:14-17 | a directory is kept exactly when some found `SKILL.md` outside `__pycache__` has it as parent; no kept directory lies under `__pycache__` |
| `GenerateSkillTests.TestFilename` | tools/generate_skill_tests.py:21-23 | the name is `test_` + the skill name with each `-` replaced by `_` + `.py` |
| `GenerateSkillTests.TestFilenameRoundTrip` | tools/generate_skill_tests.py:21-23 | for names without `_`, the skill name is recovered from the file name |
| `GenerateSkillTests.TestFilenameInjective` | tools/generate_skill_tests.py:21-23 | two valid skill names never share a test file |
| `GenerateSkillTests.TestFilenameExample` | tools/generate_skill_tests.py:21-23 | `build-go` gives `test_build_go.py` |
| `GenerateSkillTests.RenderTestLines` | tools/generate_skill_tests.py:28-106 | the skeleton has 77 lines; the tenth is the skill-name line and the eleventh the tiers line |
| `GenerateSkillTests.RenderTestEmbedsNameAndTiers` | tools/generate_skill_tests.py:38-39 | the rendered test contains `SKILL_NAME = "{name}"` followed by the dotted `TIERS` list, each on its own line |
| `GenerateSkillTests.Generate` | tools/generate_skill_tests.py:110-148 | a missing root returns 2 before anything is written; otherwise the loop over the skill directories in sorted order returns 0 with the counts and writes of the recursive `GenerateSkillTests.RunLoop` tally |
| `GenerateSkillTests.CountsAddUp` | tools/generate_skill_tests.py:130-145 | `created + skipped` is the number of script-backed skills; `created` is the number of files written; afterwards the test files are the initial ones plus those written |
| `GenerateSkillTests.OverwriteWritesAll` | tools/generate_skill_tests.py:139-145 | with `--overwrite` nothing is skipped and every script-backed skill gets a file |
| `GenerateSkillTests.WrittenFiles` | tools/generate_skill_tests.py:133-145 | every write is the rendered test of a script-backed skill under its test file name; without `--overwrite` no existing file is written and no file is written twice |
| `Reporting.ExitCodeValues` | src/skillkit/report.py:12-18 | SUCCESS=0, UNMET=2, PRECONDITION=3, ERROR=4, pairwise distinct |
| `Reporting.NewAction` | src/skillkit/report.py:21-29 | an action built without output has stdout and stderr None |
| `Reporting.NewReport` | src/skillkit/report.py:40-48 | a report built from `ok` and `summary` has empty actions, diagnostics and artifacts |
| `Reporting.ActionDicts` | src/skillkit/report.py:55 | `asdict` is applied to each action in order, preserving length |
| `Reporting.DiagnosticDicts` | src/skillkit/report.py:56 | `asdict` is applied to each diagnostic in order, preserving length |
| `Reporting.StrValues` | src/skillkit/report.py:57 | the artifacts are copied in order |
| `Reporting.ReportFieldLookup` | src/skillkit/report.py:52-58 | each of the five keys of the report dictionary finds its own value, and `changed` is absent |
| `Reporting.ToDict` | src/skillkit/report.py:50-58 | the keys are exactly ok, summary, actions, diagnostics and artifacts, with no `changed`; `ok` and `summary` are carried unchanged; actions, diagnostics and artifacts are mapped element by element |
| `Reporting.ActionRoundTrip` | src/skillkit/report.py:55 | an action is recovered from its dictionary |
| `Reporting.ActionsRoundTrip` | src/skillkit/report.py:55 | the action list is recovered from its dictionaries |
| `Reporting.DiagnosticsRoundTrip` | src/skillkit/report.py:56 | the diagnostic list is recovered from its dictionaries |
| `Reporting.StringsRoundTrip` | src/skillkit/report.py:57 | the artifact list is recovered from its values |
| `Reporting.ToDictRoundTrip` | src/skillkit/report.py:50-58 | `to_dict` loses nothing: the report is recovered from its dictionary |
| `Reporting.EmitReport` | src/skillkit/report.py:61-68 | text mode writes exactly the summary and a newline; JSON mode writes the dump of `to_dict` and a newline |
| `Reporting.ActionFromProc` | src/skillkit/report.py:75-89 | cwd, exit code, stdout and stderr are passed through |
| `Reporting.ActionFromProcCmd` | src/skillkit/report.py:84 | for arguments without spaces, splitting `cmd` on spaces gives back the argument list |
| `Detect.LiteralPatternMatchesItself` | src/skillkit/detect.py:29 | a pattern without `*` matches exactly the file of that name |
| `Detect.StarSuffixMatches` | src/skillkit/detect.py:17 | `*` + suffix matches exactly the names ending in the suffix |
| `Detect.DetectBuildSystem` | src/skillkit/detect.py:24-32 | the nested loops with `break` give the list of the recursive `Detect.Detected` for the marker table |
| `Detect.DetectedCharacterized` | src/skillkit/detect.py:27-31 | a system is detected exactly when one of its patterns matches an entry of the directory |
| `Detect.DetectedInTableOrder` | src/skillkit/detect.py:11-21 | the detected systems are table names at strictly increasing positions: a subset of the table, in declaration order |
| `Detect.MarkerNamesDistinct` | src/skillkit/detect.py:11-21 | the marker table's system names are distinct |
| `Detect.DetectedHasNoDuplicates` | src/skillkit/detect.py:29-31 | no system is reported twice |
| `Detect.NothingDetected` | src/skillkit/detect.py:26-32 | the result is empty exactly when no pattern matches |
| `Detect.GoModuleDetected` | src/skillkit/detect.py:12 | a directory with `go.mod` is detected as `go` |
| `Detect.CsprojDetected` | src/skillkit/detect.py:17 | a directory with a `.csproj` file is detected as `dotnet` |
| `GitStatusRun.Decide` | skills/.curated/git-status/scripts/run.py:22-59 | no root: not ok, "git repository not found", one error diagnostic, no actions, PRECONDITION; with a root: the status and diff actions in that order with their process results, `ok` is not dirty, summary "working tree clean" when clean and "working tree has changes" when dirty, SUCCESS when clean and UNMET when dirty |
| `GitStatusRun.OkIffSuccess` | skills/.curated/git-status/scripts/run.py:23-59 | `ok` holds exactly when the exit code is 0; the code is 0, 2 or 3 |
| `GitStatusRun.Run` | skills/.curated/git-status/scripts/run.py:23-59 | in text mode the script writes "git repository not found", "working tree has changes" or "working tree clean" with a newline, for no root, a dirty tree and a clean tree; it exits 3, 2 or 0 in the same cases |
| `GitStatusRun.RunJsonReadsBack` | skills/.curated/git-status/scripts/run.py:53-58 | in JSON mode the script writes the dump of `to_dict` of its report and a newline, and that dictionary reads back as the whole report |
| `DetectBuildSystemRun.Decide` | skills/.experimental/detect-build-system/scripts/run.py:21-38 | nothing detected: not ok, "no build system detected", one warning diagnostic, UNMET; otherwise ok, SUCCESS, artifacts equal to the detected list and a summary with the "detected build systems: " prefix |
| `DetectBuildSystemRun.OkIffSuccess` | skills/.experimental/detect-build-system/scripts/run.py:21-38 | `ok` holds exactly when the exit code is 0; the code is 0 or 2 |
| `DetectBuildSystemRun.SummaryListsDetected` | skills/.experimental/detect-build-system/scripts/run.py:34 | after the prefix, the summary is the detected names joined by `", "`; splitting it gives them back |
| `DetectBuildSystemRun.MarkerNamesHaveNoComma` | src/skillkit/detect.py:11-21 | no system name contains a comma |
| `DetectBuildSystemRun.NoEntriesIsUnmet` | skills/.experimental/detect-build-system/scripts/run.py:21-38 | a directory with no entries, such as one that does not exist and so globs nothing, gives a report that is not ok and exit UNMET (2) |
| `DetectBuildSystemRun.RunSummary` | skills/.experimental/detect-build-system/scripts/run.py:20-38 | on a directory listing, the script succeeds exactly when some marker matches; its summary lists the detected systems and its artifacts are that list |
| `CleanMain.FilterArgv` | src/clean_interfaces/main.py:32-44 | the while loop computes `CleanMain.Stripped`, the recursively defined filtered argv |
| `CleanMain.KeptIsOrderedSelection` | src/clean_interfaces/main.py:41-44 | the kept arguments are input elements taken at strictly increasing positions (original relative order) |
| `CleanMain.KeptHasNoDotenv` | src/clean_interfaces/main.py:35-40 | no kept argument is `--dotenv`, `-e` or starts with `--dotenv=` |
| `CleanMain.KeptIsShorter` | src/clean_interfaces/main.py:33-44 | the filtered list is never longer than the input |
| `CleanMain.UnflaggedKept` | src/clean_interfaces/main.py:41-44 | arguments with no dotenv option are all kept unchanged |
| `CleanMain.KeptSkipsUnflagged` | src/clean_interfaces/main.py:41-44 | a run of arguments with no dotenv option is kept as it stands |
| `CleanMain.DotenvOptionRemoved` | src/clean_interfaces/main.py:35-37 | `--dotenv`/`-e` is dropped together with the element that follows it |
| `CleanMain.DotenvAssignmentRemoved` | src/clean_interfaces/main.py:38-40 | an element starting with `--dotenv=` is dropped by itself |
| `CleanMain.StrippedIdempotent` | src/clean_interfaces/main.py:32-44 | filtering an already filtered argv changes nothing |
| `CleanMain.ProgramNameFirst` | src/clean_interfaces/main.py:32 | the filtered argv starts with the original `argv[0]` |
| `CleanMain.Interpreter.constructor` | src/clean_interfaces/main.py:28 | the interpreter starts with the given argv |
| `CleanMain.Interpreter.Run` | src/clean_interfaces/main.py:28-53 | the application sees the filtered argv; `sys.argv` is the original afterwards whether or not the application raises; without an exception the exit code is 0 |
| `Settings.ValidateLogLevel` | src/clean_interfaces/utils/settings.py:75-83 | accepted exactly when the upper-cased value is one of the five levels; returns the upper-cased value; rejects with ValueError "Invalid log level: {v}. Must be one of {valid_levels}", the set printed in an order that lists the five levels exactly once |
| `Settings.SetDisplay` | src/clean_interfaces/utils/settings.py:81 | for at least one element, the printed set is braced: it opens with `{` and closes with `}`; the contents between the braces are not stated |
| `Settings.DeclarationOrders` | src/clean_interfaces/utils/settings.py:79-91 | the declaration order of the five levels and of the three formats lists each set exactly once |
| `Settings.ValidateLogFormat` | src/clean_interfaces/utils/settings.py:85-93 | accepted exactly when the lower-cased value is json, console or plain; returns the lower-cased value; rejects with ValueError "Invalid log format: {v}. Must be one of {valid_formats}", the set printed in an order that lists the three formats exactly once |
| `Settings.UpperIdempotent` | src/clean_interfaces/utils/settings.py:80-83 | upper-casing twice is upper-casing once |
| `Settings.LowerIdempotent` | src/clean_interfaces/utils/settings.py:90-93 | lower-casing twice is lower-casing once |
| `Settings.UpperOfLower` | src/clean_interfaces/utils/settings.py:80 | the upper case ignores a prior lower-casing |
| `Settings.LowerOfUpper` | src/clean_interfaces/utils/settings.py:90 | the lower case ignores a prior upper-casing |
| `Settings.LogLevelNormalises` | src/clean_interfaces/utils/settings.py:75-83 | the level check ignores case, and its result validates to itself |
| `Settings.LogFormatNormalises` | src/clean_interfaces/utils/settings.py:85-93 | the format check ignores case, and its result validates to itself |
| `Settings.LogLevelExample` | src/clean_interfaces/utils/settings.py:75-83 | "debug" becomes "DEBUG"; "verbose" is rejected with the message naming it and the set of levels |
| `Settings.ValidateTimeout` | src/clean_interfaces/utils/settings.py:95-102 | values of at most 0 are rejected with "Timeout must be a positive integer"; positive values are returned unchanged |
| `Settings.OtelExportEnabled` | src/clean_interfaces/utils/settings.py:104-107 | export is enabled exactly when the mode is not FILE (that is, OTLP or BOTH) |
| `Settings.DefaultsAreValid` | src/clean_interfaces/utils/settings.py:38-73 | the defaults (INFO, json, no file, FILE, 30000) pass their validators and leave export disabled |
| `Settings.ModelDump` | src/clean_interfaces/utils/settings.py:109-113 | the dump has the seven fields followed by `otel_export_enabled` |
| `Settings.ModelDumpCarriesFlag` | src/clean_interfaces/utils/settings.py:109-113 | the dump's `otel_export_enabled` equals the property |
| `Settings.InterfaceTypeOf` | src/clean_interfaces/types.py:6-11 | `InterfaceType(s)` succeeds exactly for the three member values and gives the member with that value |
| `Settings.ValidateInterfaceType` | src/clean_interfaces/utils/settings.py:133-146 | accepted exactly when the lower-cased value is an interface type's value; returns it lower-cased; otherwise ValueError "Invalid interface type: {v}. Must be one of ['cli', 'restapi', 'mcp']" |
| `Settings.InterfaceTypeEnumDefined` | src/clean_interfaces/utils/settings.py:148-153 | after validation, `interface_type_enum` always exists and has the stored value |
| `Settings.InterfaceTypeExample` | src/clean_interfaces/utils/settings.py:133-146 | "CLI" becomes "cli"; "grpc" is rejected |
| `Settings.LoggingSettingsObject.constructor` | src/clean_interfaces/utils/settings.py:22-73 | a settings object holds the values it was loaded with |
| `Settings.InterfaceSettingsObject.constructor` | src/clean_interfaces/utils/settings.py:116-131 | an interface settings object holds the loaded interface type |
| `Settings.Registry.constructor` | src/clean_interfaces/utils/settings.py:28 | both cached instances start empty |
| `Settings.Registry.GetSettings` | src/clean_interfaces/utils/settings.py:156-165 | returns the cached instance if there is one; otherwise builds a new one from the loaded values and caches it; the other cache is unchanged |
| `Settings.Registry.ResetSettings` | src/clean_interfaces/utils/settings.py:168-173 | clears the logging cache only |
| `Settings.Registry.GetInterfaceSettings` | src/clean_interfaces/utils/settings.py:176-185 | returns the cached interface instance if there is one; otherwise builds and caches a new one; the other cache is unchanged |
| `Settings.Registry.ResetInterfaceSettings` | src/clean_interfaces/utils/settings.py:188-193 | clears the interface cache only |
| `Settings.CachingScenario` | src/clean_interfaces/utils/settings.py:156-173 | two gets without a reset return the same object, built from the first load; after a reset the next get returns a new object from the new load |
| `ContractChecks.ToDictFailsJsonContract` | tools/generate_skill_tests.py:65-74 | no report's `to_dict` passes the generated tests' JSON check, dry-run test or invalid-cwd test, because `changed` is missing |
| `ContractChecks.ContractDict` | src/skillkit/report.py:50-58 | the corrected dictionary is `to_dict`'s five entries followed by `changed` |
| `ContractChecks.ContractDictAccepted` | tools/generate_skill_tests.py:65-74 | the corrected dictionary passes the JSON check, with `ok` and `summary` from the report and `changed` false |
| `ContractChecks.DryRunAcceptance` | tools/generate_skill_tests.py:82-93 | the dry-run test accepts exactly exit 0 with `ok` true or exit 3 with `ok` false |
| `ContractChecks.GitStatusAgainstGeneratedTest` | tools/generate_skill_tests.py:82-100 | for git-status, the dry-run test accepts exactly a missing repository or a clean tree; a dirty tree's exit 2 is rejected; an existing directory outside a repository yields a report the invalid-cwd test accepts |
| `ContractChecks.DetectBuildSystemAgainstGeneratedTest` | tools/generate_skill_tests.py:82-93 | for detect-build-system, the dry-run test accepts exactly a run that detects something; a run with nothing detected (exit 2) is rejected by the dry-run test and by the invalid-cwd test, which expects 3 |

Beyond the two findings below, the model shows two more mismatches between
the scripts and the tests that `tools/generate_skill_tests.py` writes. The
generated dry-run test accepts only exit codes 0 and 3. The `git-status`
script exits 2 (UNMET) on a dirty tree, and `detect-build-system` exits 2
when it finds nothing. Both runs are rejected by the test
(`ContractChecks.GitStatusAgainstGeneratedTest`,
`ContractChecks.DetectBuildSystemAgainstGeneratedTest`). The invalid-cwd
test's nonexistent directory globs nothing, so `detect-build-system` exits 2
there (`DetectBuildSystemRun.NoEntriesIsUnmet`) where the test expects 3. It is not clear
whether the scripts or the test are meant to change, so these are stated as
properties and not as findings.

## Left out

- `yaml.safe_load` is a total function parameter. YAML syntax errors (which
  raise `yaml.YAMLError`, a non-ValueError escaping `validate_skill_dir`) are
  not modelled separately, and nothing is assumed about how the front matter
  parses beyond the stated preconditions.
- Filesystem access is not modelled. This covers `rglob`, `read_text`,
  `exists`, `mkdir`, `write_text`, `glob` and `skillkit.fs.atomic_write`. The
  order in which `rglob` yields files is whatever sequence is passed in.
  File contents and existence are inputs, and the files written are
  returned as values.
- NewSkill.Scaffold returns the file list (from NewSkill.ScaffoldFiles) instead of writing it.
  Atomic replacement and partial writes are not modelled.
- `json.dumps` is a parameter (`JsonDumper`), and JSON parsing in the
  generated tests is taken to give back the dictionary. So the contract
  checks read the dictionary directly.
- Subprocess execution (`skillkit.proc.run`, `skillkit.git.git_root`,
  `is_dirty`) is given as the observed root, process results and dirty
  flag. `src/skillkit/proc.py`, `src/skillkit/git.py`, `src/skillkit/cli.py`
  and `tools/install.py` are not part of this model.
- Argument parsing (`argparse`, `typer`, `--help`) and `sys.path` insertion
  are not modelled. The modelled entry points take the parsed values.
- `generate_skill_tests.main`'s final count message and the stderr message
  for a missing root are not modelled. The counts themselves are returned.
- `new_skill.main`'s `Created {base_dir}` line is built from the relative
  target path. Printing it is not modelled separately.
- GenerateSkillTests.RenderTestLines keeps the skeleton's fixed lines as
  literals. Properties are stated about the name and tiers lines only.
- Detect.GlobMatch supports literal names and `*`, the only wildcard the
  marker table uses. Other `fnmatch` syntax (`?`, `[...]`) and matches in
  subdirectories are not modelled.
- Settings.ValidateLogLevel and Settings.ValidateLogFormat take the order
  in which the valid set prints as a parameter. Python's set order depends
  on string hashing, so the model does not fix it. Settings.SetDisplay quotes
  every element with single quotes, as `repr` does for strings without quotes.
- Text.Upper and Text.Lower map ASCII letters only. Python's Unicode case
  mapping (for example `"ß".upper() == "SS"`) is not modelled.
- pydantic's settings loading from the environment and `.env`, its type
  coercion, and its `ValidationError` wrapping are not modelled. The
  validators are modelled as the functions they are, and loaded values are
  parameters.
- The `Literal[...]` field types and the `ge=1` constraint that pydantic
  enforces are not modelled beyond the validators. pydantic checks them
  before the validators run, so through `LoggingSettings()` a value such as
  `LOG_LEVEL=debug` or a timeout of 0 is rejected by pydantic's own check.
  The normalisation and the messages in Settings.LogLevelNormalises,
  Settings.LogLevelExample and Settings.ValidateTimeout are what the
  validator classmethods do when called directly.
- `skillkit.proc.run` raising is not modelled: `subprocess.run` raises
  FileNotFoundError for a nonexistent `cwd` and TimeoutExpired on a timeout,
  and neither is caught by the scripts. `git_root` is a parameter, so the
  model covers an existing directory outside a repository; the generated
  invalid-cwd test's nonexistent `--cwd`, on which `git-status` stops with
  a traceback, is out of the model's reach for that script.
- `model_dump` renders the export mode as its string value; its keyword
  arguments are not modelled.
- CleanMain.Interpreter.Run requires a non-empty argv, as CPython always
  provides one. The `--dotenv` file checks of `typer` and the application
  `run_app` are not modelled. Whether the application raises is a
  parameter.
- Ordering.SortBy is an insertion sort. Stability of `sorted` is not
  stated, and equal keys can only come from two skills with the same tier
  and name.
- The repository's documentation also describes other checks. These are
  uniqueness of skill names, description rules, companion-test presence
  checks and a subprocess contract runner. `tools/validate_skills.py`
  implements none of them, so the model follows the code and leaves them
  out.
- `tests/unit/test_new_skill.py` calls functions that `tools/new_skill.py`
  does not define. The model follows `validate_name` and `build_skill_md`.

## Findings

| source | as written | input that shows it | evidently intended | confidence | as-written member | corrected member |
|---|---|---|---|---|---|---|
| src/skillkit/report.py:50-58 | `to_dict` emits only ok, summary, actions, diagnostics and artifacts | any report: the generated tests' `parse_json_stdout` (tools/generate_skill_tests.py:69-73) asserts a boolean `changed` key, so every JSON run of every script fails them | the emitted JSON object also carries `changed` (false for a dry run) | not executed | `ContractChecks.ToDictFailsJsonContract` | `ContractChecks.ContractDictAccepted` (on `ContractChecks.ContractDict`) |
| tools/new_skill.py:10 | `NAME_RE.match` with `$`, which also matches before a final newline | `"a\n"` passes `validate_name` | only `[a-z0-9]` groups joined by single hyphens, nothing else (`re.fullmatch` or `\Z`) | not executed | `NewSkill.TrailingNewlineAccepted` | `NewSkill.ValidateNameStrict` (with `NewSkill.StrictImpliesAsWritten`) |
