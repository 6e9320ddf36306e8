/**
 * The JSON contract that tools/generate_skill_tests.py writes into every
 * companion test, checked against what the skill scripts report
 * (src/skillkit/report.py and the two scripts' decisions).
 */
module ContractChecks {
  import opened Wrappers
  import opened Paths
  import opened PyValues
  import opened Reporting
  import GenerateSkillTests
  import GitStatusRun
  import DetectBuildSystemRun

  /** No report's `to_dict` passes the generated tests' JSON check: it has no `changed` key. */
  lemma ToDictFailsJsonContract(r: Report)
    ensures !GenerateSkillTests.JsonContractAccepts(ToDict(r))
    ensures !GenerateSkillTests.DryRunTestAccepts(0, ToDict(r)) && !GenerateSkillTests.DryRunTestAccepts(3, ToDict(r))
    ensures !GenerateSkillTests.InvalidCwdTestAccepts(3, ToDict(r))
  {
  }

  /** The dictionary a dry run is meant to print: `to_dict` plus `changed: false`. */
  function ContractDict(r: Report): (v: Value)
    ensures v.Dict? && Keys(v.fields) == ReportKeys + ["changed"]
    ensures v.fields[..5] == ToDict(r).fields
  {
    Dict(ToDict(r).fields + [("changed", Bool(false))])
  }

  /** The corrected dictionary passes the JSON check, with `ok` and `summary` taken from the report. */
  lemma ContractDictAccepted(r: Report)
    ensures GenerateSkillTests.JsonContractAccepts(ContractDict(r))
    ensures Get(ContractDict(r).fields, "ok") == Some(Bool(r.ok))
    ensures Get(ContractDict(r).fields, "summary") == Some(Str(r.summary))
    ensures Get(ContractDict(r).fields, "changed") == Some(Bool(false))
  {
    var f := ContractDict(r).fields;
    assert "summary"[0] != "changed"[0] && "actions"[0] != "changed"[0];
    GetAt(f, 5);
  }

  /**
   * The dry-run test accepts the corrected dictionary of a report exactly
   * when the exit code is 0 with `ok` true or 3 with `ok` false.
   */
  lemma DryRunAcceptance(r: Report, code: ExitCode)
    ensures GenerateSkillTests.DryRunTestAccepts(code.Value(), ContractDict(r)) <==>
              (code == SUCCESS && r.ok) || (code == PRECONDITION && !r.ok)
  {
    ContractDictAccepted(r);
  }

  /**
   * git-status: with the corrected dictionary, a clean tree and an existing
   * directory outside any repository pass the generated tests, but a dirty
   * tree exits with UNMET (2), which the dry-run test rejects.
   */
  lemma GitStatusAgainstGeneratedTest(root: Option<Path>, status: GitStatusRun.ProcResult, diff: GitStatusRun.ProcResult, dirty: bool)
    ensures var (report, code) := GitStatusRun.Decide(root, status, diff, dirty);
      GenerateSkillTests.DryRunTestAccepts(code.Value(), ContractDict(report)) <==> root.None? || !dirty
    ensures root.None? ==>
              var (report, code) := GitStatusRun.Decide(root, status, diff, dirty);
              GenerateSkillTests.InvalidCwdTestAccepts(code.Value(), ContractDict(report))
  {
    var (report, code) := GitStatusRun.Decide(root, status, diff, dirty);
    DryRunAcceptance(report, code);
    ContractDictAccepted(report);
  }

  /**
   * detect-build-system: with the corrected dictionary, a run that detects
   * something passes the dry-run test; a run that detects nothing exits
   * with UNMET (2), which both the dry-run test and the invalid-cwd test
   * reject. A directory that does not exist lists no entries, so the
   * invalid-cwd test's run is such a run.
   */
  lemma DetectBuildSystemAgainstGeneratedTest(detected: seq<string>)
    ensures var (report, code) := DetectBuildSystemRun.Decide(detected);
      GenerateSkillTests.DryRunTestAccepts(code.Value(), ContractDict(report)) <==> detected != []
    ensures detected == [] ==>
              var (report, code) := DetectBuildSystemRun.Decide(detected);
              !GenerateSkillTests.InvalidCwdTestAccepts(code.Value(), ContractDict(report))
  {
    var (report, code) := DetectBuildSystemRun.Decide(detected);
    DryRunAcceptance(report, code);
  }
}
