/**
 * Model of skills/.curated/git-status/scripts/run.py: from the observed git
 * root, the two git commands' results and whether the tree is dirty, the
 * report and the exit code.
 */
module GitStatusRun {
  import opened Wrappers
  import opened Paths
  import opened Reporting

  /** What `skillkit.proc.run` returns for one command. */
  datatype ProcResult = ProcResult(exitCode: int, stdout: string, stderr: string)

  const StatusCmd := "git status --short"
  const DiffCmd := "git diff --stat"

  function RecordedAction(cmd: string, root: Path, p: ProcResult): Action {
    Action(cmd, Display(root), p.exitCode, Some(p.stdout), Some(p.stderr))
  }

  /**
   * `main`'s decision: `root` is what `git_root` found, `status` and `diff`
   * the results of the two commands run there, `dirty` what `is_dirty` said.
   */
  function Decide(root: Option<Path>, status: ProcResult, diff: ProcResult, dirty: bool): (result: (Report, ExitCode))
    ensures root.None? ==>
              && result.0 == Report(false, "git repository not found", [], [Diagnostic("error", "not a git repository")], [])
              && result.1 == PRECONDITION
    ensures root.Some? ==>
              && result.0.actions == [RecordedAction(StatusCmd, root.value, status), RecordedAction(DiffCmd, root.value, diff)]
              && result.0.diagnostics == [] && result.0.artifacts == []
              && result.0.ok == !dirty
              && result.0.summary == (if dirty then "working tree has changes" else "working tree clean")
              && result.1 == (if dirty then UNMET else SUCCESS)
  {
    match root
    case None =>
      var report := Report(false, "git repository not found", [], [Diagnostic("error", "not a git repository")], []);
      (report, PRECONDITION)
    case Some(r) =>
      var actions := [RecordedAction(StatusCmd, r, status), RecordedAction(DiffCmd, r, diff)];
      var summary := if !dirty then "working tree clean" else "working tree has changes";
      (Report(!dirty, summary, actions, [], []), if !dirty then SUCCESS else UNMET)
  }

  /** `ok` holds exactly when the script exits 0, and the exit code is 0, 2 or 3. */
  lemma OkIffSuccess(root: Option<Path>, status: ProcResult, diff: ProcResult, dirty: bool)
    ensures var (report, code) := Decide(root, status, diff, dirty);
      && (report.ok <==> code.Value() == 0)
      && code.Value() in {0, 2, 3}
  {
  }

  /**
   * What the script writes and the code it returns: in text mode one line
   * naming the case; exit 3 without a repository, 2 for a dirty tree, 0 for
   * a clean one.
   */
  function Run(root: Option<Path>, status: ProcResult, diff: ProcResult, dirty: bool,
                jsonOutput: bool, dumps: JsonDumper): (result: (string, int))
    ensures result.1 == (if root.None? then 3 else if dirty then 2 else 0)
    ensures !jsonOutput ==>
              result.0 == (if root.None? then "git repository not found\n"
                           else if dirty then "working tree has changes\n"
                           else "working tree clean\n")
  {
    var (report, code) := Decide(root, status, diff, dirty);
    (EmitReport(report, jsonOutput, dumps), code.Value())
  }

  /** In JSON mode the script writes one line from which its whole report reads back. */
  lemma RunJsonReadsBack(root: Option<Path>, status: ProcResult, diff: ProcResult, dirty: bool, dumps: JsonDumper)
    ensures var out := Run(root, status, diff, dirty, true, dumps).0;
      var report := Decide(root, status, diff, dirty).0;
      out == dumps(ToDict(report)) + "\n" && FromDict(ToDict(report)) == Some(report)
  {
    ToDictRoundTrip(Decide(root, status, diff, dirty).0);
  }
}
