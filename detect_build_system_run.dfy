/**
 * Model of skills/.experimental/detect-build-system/scripts/run.py: the
 * report and exit code for the list of detected build systems.
 */
module DetectBuildSystemRun {
  import opened Text
  import opened Reporting
  import Detect

  const SummaryPrefix := "detected build systems: "

  /** `main`'s decision on the detected list. */
  function Decide(detected: seq<string>): (result: (Report, ExitCode))
    ensures detected == [] ==>
              && result.0 == Report(false, "no build system detected", [], [Diagnostic("warning", "no known build markers found")], [])
              && result.1 == UNMET
    ensures detected != [] ==>
              && result.0.ok && result.1 == SUCCESS
              && result.0.actions == [] && result.0.diagnostics == []
              && result.0.artifacts == detected
              && StartsWith(result.0.summary, SummaryPrefix)
  {
    if detected == [] then
      (Report(false, "no build system detected", [], [Diagnostic("warning", "no known build markers found")], []), UNMET)
    else
      (Report(true, SummaryPrefix + Join(detected, ", "), [], [], detected), SUCCESS)
  }

  /** `ok` holds exactly when the script exits 0, and the exit code is 0 or 2. */
  lemma OkIffSuccess(detected: seq<string>)
    ensures var (report, code) := Decide(detected);
      && (report.ok <==> code.Value() == 0)
      && (code.Value() == 0 || code.Value() == 2)
  {
  }

  /** The summary lists the detected systems: cutting the prefix and splitting on ", " gives them back. */
  lemma SummaryListsDetected(detected: seq<string>)
    requires detected != [] && FreeOf(detected, ',')
    ensures var summary := Decide(detected).0.summary;
      Split(summary[|SummaryPrefix|..], ", ", -1) == detected
  {
    var summary := Decide(detected).0.summary;
    assert summary[|SummaryPrefix|..] == Join(detected, ", ");
    JoinSplit(detected, ", ");
  }

  /** The script run on a directory: detection, then the decision. */
  function Run(entries: seq<string>): (Report, ExitCode) {
    Decide(Detect.Detected(Detect.Markers, entries))
  }

  /** A directory with no entries (one that does not exist globs nothing) gives UNMET. */
  lemma NoEntriesIsUnmet()
    ensures Run([]).1 == UNMET && !Run([]).0.ok
  {
    Detect.NothingDetected([]);
  }

  /** No system name of the marker table holds a comma. */
  lemma MarkerNamesHaveNoComma()
    ensures forall m, j :: 0 <= m < |Detect.Markers| && 0 <= j < |Detect.Markers[m].0| ==> Detect.Markers[m].0[j] != ','
  {
  }

  /**
   * On a directory, the script succeeds exactly when some marker matches,
   * and then its summary splits back into the detected systems, which are
   * also its artifacts.
   */
  lemma RunSummary(entries: seq<string>)
    ensures var (report, code) := Run(entries);
      var detected := Detect.Detected(Detect.Markers, entries);
      && (code == SUCCESS <==> exists m :: 0 <= m < |Detect.Markers| && Detect.SystemPresent(Detect.Markers[m].1, entries))
      && (code == SUCCESS ==> Split(report.summary[|SummaryPrefix|..], ", ", -1) == detected && report.artifacts == detected)
  {
    var detected := Detect.Detected(Detect.Markers, entries);
    Detect.NothingDetected(entries);
    if detected != [] {
      MarkerNamesHaveNoComma();
      forall i, j | 0 <= i < |detected| && 0 <= j < |detected[i]|
        ensures detected[i][j] != ','
      {
        Detect.DetectedCharacterized(Detect.Markers, entries, detected[i]);
      }
      SummaryListsDetected(detected);
    }
  }
}
