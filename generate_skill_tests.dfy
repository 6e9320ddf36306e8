/**
 * Model of tools/generate_skill_tests.py: discovering skill directories,
 * naming and rendering the companion pytest file, and the loop that writes
 * the files and counts what it created and skipped. What the rendered test
 * accepts is stated as predicates over the script's exit code and its JSON
 * object.
 */
module GenerateSkillTests {
  import opened Wrappers
  import opened Text
  import opened Paths
  import opened PyValues
  import opened Ordering
  import NewSkill

  /** The tier directories, dotted, as the generated test searches them. */
  const Tiers: seq<string> := [".curated", ".experimental", ".system"]

  /** Python's `repr` of `Tiers`. */
  const TiersRepr := "['.curated', '.experimental', '.system']"

  const CacheDir := "__pycache__"

  /** The directories of the found SKILL.md files, skipping any under a cache directory, in discovery order. */
  function SkillDirs(found: seq<Path>): seq<Path>
  {
    if found == [] then []
    else
      var p := found[|found| - 1];
      if CacheDir in p then SkillDirs(found[..|found| - 1])
      else SkillDirs(found[..|found| - 1]) + [Parent(p)]
  }

  /** `iter_skill_dirs`, given the paths `rglob("SKILL.md")` yields. */
  method IterSkillDirs(found: seq<Path>) returns (dirs: seq<Path>)
    ensures dirs == SkillDirs(found)
  {
    dirs := [];
    for i := 0 to |found|
      invariant dirs == SkillDirs(found[..i])
    {
      assert found[..i + 1][..i] == found[..i];
      if CacheDir in found[i] {
        continue;
      }
      dirs := dirs + [Parent(found[i])];
    }
    assert found[..|found|] == found;
  }

  /**
   * A directory is listed exactly when it is the parent of a found SKILL.md
   * with no cache segment; no listed directory has a cache segment.
   */
  lemma {:induction false} SkillDirsCharacterized(found: seq<Path>)
    ensures |SkillDirs(found)| <= |found|
    ensures forall d :: d in SkillDirs(found) <==>
              exists i :: 0 <= i < |found| && CacheDir !in found[i] && d == Parent(found[i])
    ensures forall d :: d in SkillDirs(found) ==> CacheDir !in d
  {
    if found != [] {
      var init := found[..|found| - 1];
      var p := found[|found| - 1];
      SkillDirsCharacterized(init);
      assert forall i :: 0 <= i < |init| ==> init[i] == found[i];
      forall d | d in SkillDirs(found)
        ensures exists i :: 0 <= i < |found| && CacheDir !in found[i] && d == Parent(found[i])
      {
        if d !in SkillDirs(init) {
          assert d == Parent(p);
          assert CacheDir !in found[|found| - 1];
        }
      }
      forall d | exists i :: 0 <= i < |found| && CacheDir !in found[i] && d == Parent(found[i])
        ensures d in SkillDirs(found)
      {
        var i :| 0 <= i < |found| && CacheDir !in found[i] && d == Parent(found[i]);
        if i < |init| {
          assert d in SkillDirs(init);
        }
      }
      if CacheDir !in p {
        forall k | 0 <= k < |Parent(p)|
          ensures Parent(p)[k] in p
        {
          assert Parent(p)[k] == p[k];
        }
      }
    }
  }

  /** `test_filename_for_skill`. */
  function TestFilename(name: string): (r: string)
    ensures StartsWith(r, "test_") && EndsWith(r, ".py")
    ensures |r| == |name| + 8
    ensures forall i :: 0 <= i < |name| ==> r[5 + i] == (if name[i] == '-' then '_' else name[i])
  {
    "test_" + ReplaceChar(name, '-', '_') + ".py"
  }

  /** Recovers a skill name from its test file name, for names without `_`. */
  function SkillNameOfTest(file: string): string
    requires |file| >= 8
  {
    ReplaceChar(file[5..|file| - 3], '_', '-')
  }

  /** For names without `_` (every valid skill name), the test file name gives the skill name back. */
  lemma TestFilenameRoundTrip(name: string)
    requires forall i :: 0 <= i < |name| ==> name[i] != '_'
    ensures SkillNameOfTest(TestFilename(name)) == name
  {
    var f := TestFilename(name);
    assert f[5..|f| - 3] == ReplaceChar(name, '-', '_');
  }

  /** Distinct valid skill names get distinct test files. */
  lemma TestFilenameInjective(a: string, b: string)
    requires NewSkill.ValidateNameStrict(a).Pass? && NewSkill.ValidateNameStrict(b).Pass?
    requires TestFilename(a) == TestFilename(b)
    ensures a == b
  {
    TestFilenameRoundTrip(a);
    TestFilenameRoundTrip(b);
  }

  lemma TestFilenameExample()
    ensures TestFilename("build-go") == "test_build_go.py"
  {
  }

  const TestHead: seq<string> := [
      "from __future__ import annotations",
      "",
      "import json",
      "import subprocess",
      "import sys",
      "from pathlib import Path",
      "",
      "",
      "REPO_ROOT = Path(__file__).resolve().parents[2]"
    ]

  const TestBody: seq<string> := [
      "",
      "",
      "def find_skill_dir() -> Path:",
      "    for tier in TIERS:",
      "        path = REPO_ROOT / \"skills\" / tier / SKILL_NAME",
      "        if path.exists():",
      "            return path",
      "    raise AssertionError(",
      "        f\"Skill directory not found for {SKILL_NAME} under skills/{TIERS}\"",
      "    )",
      "",
      "",
      "def run_script(*args: str) -> subprocess.CompletedProcess[str]:",
      "    skill_dir = find_skill_dir()",
      "    script = skill_dir / \"scripts\" / \"run.py\"",
      "    assert script.exists(), f\"Missing entry script: {script}\"",
      "    return subprocess.run(",
      "        [sys.executable, str(script), *args],",
      "        cwd=str(REPO_ROOT),",
      "        text=True,",
      "        capture_output=True,",
      "        check=False,",
      "    )",
      "",
      "",
      "def parse_json_stdout(proc: subprocess.CompletedProcess[str]) -> dict:",
      "    assert proc.stdout.strip(), \"stdout is empty in --json mode\"",
      "    obj = json.loads(proc.stdout)",
      "    assert isinstance(obj, dict), \"JSON output must be an object\"",
      "    for key in (\"ok\", \"summary\", \"changed\"):",
      "        assert key in obj, f\"JSON missing required key: {key}\"",
      "    assert isinstance(obj[\"ok\"], bool)",
      "    assert isinstance(obj[\"summary\"], str)",
      "    assert isinstance(obj[\"changed\"], bool)",
      "    return obj",
      "",
      "",
      "def test_help_works():",
      "    proc = run_script(\"--help\")",
      "    assert proc.returncode == 0, proc.stderr",
      "",
      "",
      "def test_json_contract_dry_run():",
      "    proc = run_script(\"--json\", \"--cwd\", str(REPO_ROOT))",
      "    assert proc.returncode in (0, 3), (",
      "        f\"unexpected exit={proc.returncode} stderr={proc.stderr}\"",
      "    )",
      "    obj = parse_json_stdout(proc)",
      "    assert obj[\"changed\"] is False",
      "",
      "    if proc.returncode == 0:",
      "        assert obj[\"ok\"] is True",
      "    if proc.returncode == 3:",
      "        assert obj[\"ok\"] is False",
      "",
      "",
      "def test_json_contract_invalid_cwd_is_precondition_failure():",
      "    bad = REPO_ROOT / \".tmp\" / \"does-not-exist\"",
      "    proc = run_script(\"--json\", \"--cwd\", str(bad))",
      "    assert proc.returncode == 3, (",
      "        f\"expected exit=3, got {proc.returncode} stderr={proc.stderr}\"",
      "    )",
      "    obj = parse_json_stdout(proc)",
      "    assert obj[\"ok\"] is False",
      "    assert obj[\"changed\"] is False",
      ""
    ]

  function SkillNameLine(name: string): string {
    "SKILL_NAME = \"" + name + "\""
  }

  const TiersLine := "TIERS = " + TiersRepr

  /** The lines of `render_test`. */
  function RenderTestLines(name: string): (lines: seq<string>)
    ensures |lines| == 77
    ensures lines[9] == SkillNameLine(name) && lines[10] == TiersLine
  {
    TestHead + [SkillNameLine(name), TiersLine] + TestBody
  }

  /** `render_test`: the lines joined by newlines. */
  function RenderTest(name: string): string {
    Join(RenderTestLines(name), "\n")
  }

  /** The rendered file holds the skill-name line and the dotted tier list, each on a line of its own. */
  lemma RenderTestEmbedsNameAndTiers(name: string)
    ensures exists before, after ::
      RenderTest(name) == before + "\n" + SkillNameLine(name) + "\n" + TiersLine + "\n" + after
  {
    JoinMiddle(TestHead, SkillNameLine(name), TiersLine, TestBody, "\n");
  }

  // What the rendered test accepts of a script's run.

  predicate HasKey(obj: Value, key: string) {
    obj.Dict? && Get(obj.fields, key).Some?
  }

  /** `parse_json_stdout`: an object with a boolean `ok`, a string `summary` and a boolean `changed`. */
  predicate JsonContractAccepts(obj: Value) {
    && obj.Dict?
    && HasKey(obj, "ok") && HasKey(obj, "summary") && HasKey(obj, "changed")
    && Get(obj.fields, "ok").value.Bool?
    && Get(obj.fields, "summary").value.Str?
    && Get(obj.fields, "changed").value.Bool?
  }

  /** `test_json_contract_dry_run`. */
  predicate DryRunTestAccepts(exitCode: int, obj: Value) {
    && (exitCode == 0 || exitCode == 3)
    && JsonContractAccepts(obj)
    && Get(obj.fields, "changed").value == Bool(false)
    && (exitCode == 0 ==> Get(obj.fields, "ok").value == Bool(true))
    && (exitCode == 3 ==> Get(obj.fields, "ok").value == Bool(false))
  }

  /** `test_json_contract_invalid_cwd_is_precondition_failure`. */
  predicate InvalidCwdTestAccepts(exitCode: int, obj: Value) {
    && exitCode == 3
    && JsonContractAccepts(obj)
    && Get(obj.fields, "ok").value == Bool(false)
    && Get(obj.fields, "changed").value == Bool(false)
  }

  // The generation loop of `main`.

  /** Whether a skill directory has an entry script. */
  predicate ScriptBacked(dir: Path, files: set<Path>) {
    dir + ["scripts", "run.py"] in files
  }

  /** The loop's state: the counters, the files written in order, and the test files present. */
  datatype Tally = Tally(created: nat, skipped: nat, written: seq<(string, string)>, tests: set<string>)

  /** One iteration of the loop. */
  function Step(t: Tally, dir: Path, files: set<Path>, overwrite: bool): Tally {
    var name := Name(dir);
    var file := TestFilename(name);
    if !ScriptBacked(dir, files) then t
    else if file in t.tests && !overwrite then t.(skipped := t.skipped + 1)
    else Tally(t.created + 1, t.skipped, t.written + [(file, RenderTest(name))], t.tests + {file})
  }

  /** The loop over `dirs` from the tests directory's initial contents. */
  function RunLoop(dirs: seq<Path>, files: set<Path>, tests: set<string>, overwrite: bool): Tally {
    if dirs == [] then Tally(0, 0, [], tests)
    else Step(RunLoop(dirs[..|dirs| - 1], files, tests, overwrite), dirs[|dirs| - 1], files, overwrite)
  }

  /** `sorted()` on paths compares their parts in order. */
  function PathKey(p: Path): seq<string> {
    p
  }

  /** One more directory is one more iteration. */
  lemma RunLoopStep(dirs: seq<Path>, i: int, files: set<Path>, tests: set<string>, overwrite: bool)
    requires 0 <= i < |dirs|
    ensures RunLoop(dirs[..i + 1], files, tests, overwrite)
            == Step(RunLoop(dirs[..i], files, tests, overwrite), dirs[i], files, overwrite)
  {
    assert dirs[..i + 1][..i] == dirs[..i];
    assert dirs[..i + 1][i] == dirs[i];
  }

  /** How many of `dirs` have an entry script. */
  function CountScriptBacked(dirs: seq<Path>, files: set<Path>): nat {
    if dirs == [] then 0
    else CountScriptBacked(dirs[..|dirs| - 1], files) + (if ScriptBacked(dirs[|dirs| - 1], files) then 1 else 0)
  }

  /**
   * `main` after argument parsing: the skills root's existence, the found
   * SKILL.md paths, the files present under the skills root and the test
   * files already in the tests directory are inputs.
   */
  method Generate(rootExists: bool, found: seq<Path>, files: set<Path>, tests: set<string>, overwrite: bool)
    returns (exitCode: int, created: nat, skipped: nat, written: seq<(string, string)>)
    ensures !rootExists ==> exitCode == 2 && created == 0 && skipped == 0 && written == []
    ensures rootExists ==>
              var t := RunLoop(SortBy(SkillDirs(found), PathKey), files, tests, overwrite);
              exitCode == 0 && created == t.created && skipped == t.skipped && written == t.written
  {
    if !rootExists {
      return 2, 0, 0, [];
    }
    var dirs := IterSkillDirs(found);
    dirs := SortBy(dirs, PathKey);
    created, skipped, written := 0, 0, [];
    var present := tests;
    for i := 0 to |dirs|
      invariant RunLoop(dirs[..i], files, tests, overwrite) == Tally(created, skipped, written, present)
    {
      RunLoopStep(dirs, i, files, tests, overwrite);
      var name := Name(dirs[i]);
      if dirs[i] + ["scripts", "run.py"] !in files {
        continue;
      }
      var file := TestFilename(name);
      if file in present && !overwrite {
        skipped := skipped + 1;
        continue;
      }
      written := written + [(file, RenderTest(name))];
      present := present + {file};
      created := created + 1;
    }
    assert dirs[..|dirs|] == dirs;
    exitCode := 0;
  }

  /**
   * Each script-backed skill is either created or skipped, so the two
   * counters add up to the number of script-backed skills; the test files
   * present at the end are the initial ones plus those written.
   */
  lemma {:induction false} CountsAddUp(dirs: seq<Path>, files: set<Path>, tests: set<string>, overwrite: bool)
    ensures var t := RunLoop(dirs, files, tests, overwrite);
      && t.created + t.skipped == CountScriptBacked(dirs, files)
      && t.created == |t.written|
      && t.tests == tests + set w | w in t.written :: w.0
  {
    if dirs != [] {
      CountsAddUp(dirs[..|dirs| - 1], files, tests, overwrite);
    }
  }

  /** With `--overwrite`, every script-backed skill is written and nothing is skipped. */
  lemma {:induction false} OverwriteWritesAll(dirs: seq<Path>, files: set<Path>, tests: set<string>)
    ensures RunLoop(dirs, files, tests, true).skipped == 0
    ensures RunLoop(dirs, files, tests, true).created == CountScriptBacked(dirs, files)
  {
    if dirs != [] {
      OverwriteWritesAll(dirs[..|dirs| - 1], files, tests);
    }
  }

  /** `w` is the rendered test of one of the script-backed skills in `dirs`, under its test file name. */
  ghost predicate WrittenFor(w: (string, string), dirs: seq<Path>, files: set<Path>) {
    exists d :: d in dirs && ScriptBacked(d, files) && w == (TestFilename(Name(d)), RenderTest(Name(d)))
  }

  /** One iteration keeps every written file the rendered test of a script-backed skill. */
  lemma StepWrittenFor(t0: Tally, init: seq<Path>, last: Path, files: set<Path>, overwrite: bool)
    requires forall k :: 0 <= k < |t0.written| ==> WrittenFor(t0.written[k], init, files)
    ensures var t := Step(t0, last, files, overwrite);
      forall k :: 0 <= k < |t.written| ==> WrittenFor(t.written[k], init + [last], files)
  {
    var t := Step(t0, last, files, overwrite);
    var dirs := init + [last];
    forall k | 0 <= k < |t.written|
      ensures WrittenFor(t.written[k], dirs, files)
    {
      if k < |t0.written| {
        assert t.written[k] == t0.written[k];
        assert WrittenFor(t0.written[k], init, files);
        var d :| d in init && ScriptBacked(d, files) && t0.written[k] == (TestFilename(Name(d)), RenderTest(Name(d)));
        assert d in dirs;
      } else {
        assert t.written[k] == (TestFilename(Name(last)), RenderTest(Name(last)));
        assert last in dirs;
      }
    }
  }

  /**
   * Without `--overwrite`, no test file that already existed is written,
   * and no file is written twice; every file written is the rendered test
   * of a script-backed skill, under that skill's test file name.
   */
  lemma {:induction false} WrittenFiles(dirs: seq<Path>, files: set<Path>, tests: set<string>, overwrite: bool)
    ensures var t := RunLoop(dirs, files, tests, overwrite);
      && (forall k :: 0 <= k < |t.written| ==> WrittenFor(t.written[k], dirs, files))
      && (!overwrite ==> forall k :: 0 <= k < |t.written| ==> t.written[k].0 !in tests)
      && (!overwrite ==> forall k, l :: 0 <= k < l < |t.written| ==> t.written[k].0 != t.written[l].0)
      && (forall k :: 0 <= k < |t.written| ==> t.written[k].0 in t.tests)
      && tests <= t.tests
  {
    if dirs != [] {
      var init := dirs[..|dirs| - 1];
      var last := dirs[|dirs| - 1];
      WrittenFiles(init, files, tests, overwrite);
      var t0 := RunLoop(init, files, tests, overwrite);
      assert dirs == init + [last];
      StepWrittenFor(t0, init, last, files, overwrite);
    }
  }
}
