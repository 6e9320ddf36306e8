/**
 * Model of src/skillkit/report.py: the exit codes of skill scripts, the
 * report record and its dictionary form, the text/JSON choice of
 * `emit_report`, and `action_from_proc`.
 */
module Reporting {
  import opened Wrappers
  import opened Text
  import opened Paths
  import opened PyValues

  /** `ExitCode`, an IntEnum. */
  datatype ExitCode = SUCCESS | UNMET | PRECONDITION | ERROR {
    function Value(): int {
      match this
      case SUCCESS => 0
      case UNMET => 2
      case PRECONDITION => 3
      case ERROR => 4
    }
  }

  /** The four codes are 0, 2, 3 and 4, and distinct codes have distinct values. */
  lemma ExitCodeValues()
    ensures SUCCESS.Value() == 0 && UNMET.Value() == 2 && PRECONDITION.Value() == 3 && ERROR.Value() == 4
    ensures forall a: ExitCode, b: ExitCode :: a.Value() == b.Value() ==> a == b
  {
  }

  datatype Action = Action(cmd: string, cwd: string, exitCode: int, stdout: Option<string>, stderr: Option<string>)

  datatype Diagnostic = Diagnostic(level: string, message: string)

  datatype Report = Report(ok: bool, summary: string, actions: seq<Action>, diagnostics: seq<Diagnostic>, artifacts: seq<string>)

  /** `Action(cmd=..., cwd=..., exit_code=...)` with the default outputs. */
  function NewAction(cmd: string, cwd: string, exitCode: int): (a: Action)
    ensures a.stdout == None && a.stderr == None
    ensures a.cmd == cmd && a.cwd == cwd && a.exitCode == exitCode
  {
    Action(cmd, cwd, exitCode, None, None)
  }

  /** `Report(ok=..., summary=...)` with the default empty lists. */
  function NewReport(ok: bool, summary: string): (r: Report)
    ensures r.ok == ok && r.summary == summary
    ensures r.actions == [] && r.diagnostics == [] && r.artifacts == []
  {
    Report(ok, summary, [], [], [])
  }

  function OptionalStr(s: Option<string>): Value {
    match s
    case None => Null
    case Some(v) => Str(v)
  }

  /** `asdict(action)`. */
  function ActionDict(a: Action): Value {
    Dict([("cmd", Str(a.cmd)), ("cwd", Str(a.cwd)), ("exit_code", Int(a.exitCode)),
          ("stdout", OptionalStr(a.stdout)), ("stderr", OptionalStr(a.stderr))])
  }

  /** `asdict(diagnostic)`. */
  function DiagnosticDict(d: Diagnostic): Value {
    Dict([("level", Str(d.level)), ("message", Str(d.message))])
  }

  const ReportKeys: seq<string> := ["ok", "summary", "actions", "diagnostics", "artifacts"]

  function ActionDicts(actions: seq<Action>): (vs: seq<Value>)
    ensures |vs| == |actions| && forall i :: 0 <= i < |actions| ==> vs[i] == ActionDict(actions[i])
  {
    if actions == [] then [] else [ActionDict(actions[0])] + ActionDicts(actions[1..])
  }

  function DiagnosticDicts(diagnostics: seq<Diagnostic>): (vs: seq<Value>)
    ensures |vs| == |diagnostics| && forall i :: 0 <= i < |diagnostics| ==> vs[i] == DiagnosticDict(diagnostics[i])
  {
    if diagnostics == [] then [] else [DiagnosticDict(diagnostics[0])] + DiagnosticDicts(diagnostics[1..])
  }

  function StrValues(strings: seq<string>): (vs: seq<Value>)
    ensures |vs| == |strings| && forall i :: 0 <= i < |strings| ==> vs[i] == Str(strings[i])
  {
    if strings == [] then [] else [Str(strings[0])] + StrValues(strings[1..])
  }

  /** Each key of the report's dictionary finds the value stored under it. */
  lemma ReportFieldLookup(ok: Value, summary: Value, actions: Value, diagnostics: Value, artifacts: Value)
    ensures var fields := [("ok", ok), ("summary", summary), ("actions", actions),
                           ("diagnostics", diagnostics), ("artifacts", artifacts)];
      && Keys(fields) == ReportKeys
      && Get(fields, "ok") == Some(ok) && Get(fields, "summary") == Some(summary)
      && Get(fields, "actions") == Some(actions) && Get(fields, "diagnostics") == Some(diagnostics)
      && Get(fields, "artifacts") == Some(artifacts) && Get(fields, "changed") == None
  {
    var fields := [("ok", ok), ("summary", summary), ("actions", actions),
                   ("diagnostics", diagnostics), ("artifacts", artifacts)];
    assert "summary"[0] != "actions"[0];
    GetAt(fields, 2);
    GetAt(fields, 3);
    GetAt(fields, 4);
  }

  /** `Report.to_dict`. */
  function ToDict(r: Report): (v: Value)
    ensures v.Dict? && Keys(v.fields) == ReportKeys
    ensures Get(v.fields, "ok") == Some(Bool(r.ok)) && Get(v.fields, "summary") == Some(Str(r.summary))
    ensures Get(v.fields, "changed") == None
    ensures Get(v.fields, "actions") == Some(List(ActionDicts(r.actions)))
    ensures Get(v.fields, "diagnostics") == Some(List(DiagnosticDicts(r.diagnostics)))
    ensures Get(v.fields, "artifacts") == Some(List(StrValues(r.artifacts)))
  {
    ReportFieldLookup(Bool(r.ok), Str(r.summary), List(ActionDicts(r.actions)),
                      List(DiagnosticDicts(r.diagnostics)), List(StrValues(r.artifacts)));
    Dict([("ok", Bool(r.ok)),
          ("summary", Str(r.summary)),
          ("actions", List(ActionDicts(r.actions))),
          ("diagnostics", List(DiagnosticDicts(r.diagnostics))),
          ("artifacts", List(StrValues(r.artifacts)))])
  }

  // Reading the dictionary form back, to show that `to_dict` loses nothing.

  const ActionKeys: seq<string> := ["cmd", "cwd", "exit_code", "stdout", "stderr"]
  const DiagnosticKeys: seq<string> := ["level", "message"]

  /** A mapping with exactly the keys `keys`, in that order. */
  predicate HasKeys(v: Value, keys: seq<string>) {
    v.Dict? && Keys(v.fields) == keys
  }

  function OptionalStrOf(v: Value): Option<string> {
    if v.Str? then Some(v.s) else None
  }

  predicate IsOptionalStr(v: Value) {
    v.Null? || v.Str?
  }

  function ActionOf(v: Value): Option<Action> {
    if !HasKeys(v, ActionKeys) then None
    else
      var f := v.fields;
      if f[0].1.Str? && f[1].1.Str? && f[2].1.Int? && IsOptionalStr(f[3].1) && IsOptionalStr(f[4].1)
      then Some(Action(f[0].1.s, f[1].1.s, f[2].1.i, OptionalStrOf(f[3].1), OptionalStrOf(f[4].1)))
      else None
  }

  function DiagnosticOf(v: Value): Option<Diagnostic> {
    if !HasKeys(v, DiagnosticKeys) then None
    else
      var f := v.fields;
      if f[0].1.Str? && f[1].1.Str? then Some(Diagnostic(f[0].1.s, f[1].1.s)) else None
  }

  function ActionsOf(vs: seq<Value>): Option<seq<Action>> {
    if vs == [] then Some([])
    else
      var a := ActionOf(vs[0]);
      var rest := ActionsOf(vs[1..]);
      if a.Some? && rest.Some? then Some([a.value] + rest.value) else None
  }

  function DiagnosticsOf(vs: seq<Value>): Option<seq<Diagnostic>> {
    if vs == [] then Some([])
    else
      var d := DiagnosticOf(vs[0]);
      var rest := DiagnosticsOf(vs[1..]);
      if d.Some? && rest.Some? then Some([d.value] + rest.value) else None
  }

  function StringsOf(vs: seq<Value>): Option<seq<string>> {
    if vs == [] then Some([])
    else
      var rest := StringsOf(vs[1..]);
      if vs[0].Str? && rest.Some? then Some([vs[0].s] + rest.value) else None
  }

  /** The report that a mapping of the `to_dict` shape describes. */
  function FromDict(v: Value): Option<Report> {
    if !HasKeys(v, ReportKeys) then None
    else
      var f := v.fields;
      if f[0].1.Bool? && f[1].1.Str? && f[2].1.List? && f[3].1.List? && f[4].1.List? then
        var a := ActionsOf(f[2].1.items);
        var d := DiagnosticsOf(f[3].1.items);
        var s := StringsOf(f[4].1.items);
        if a.Some? && d.Some? && s.Some? then Some(Report(f[0].1.b, f[1].1.s, a.value, d.value, s.value)) else None
      else None
  }

  lemma ActionRoundTrip(a: Action)
    ensures ActionOf(ActionDict(a)) == Some(a)
  {
    assert Keys(ActionDict(a).fields) == ActionKeys;
  }

  lemma {:induction false} ActionsRoundTrip(actions: seq<Action>)
    ensures ActionsOf(ActionDicts(actions)) == Some(actions)
  {
    if actions != [] {
      ActionRoundTrip(actions[0]);
      ActionsRoundTrip(actions[1..]);
      assert ActionDicts(actions)[1..] == ActionDicts(actions[1..]);
      assert [actions[0]] + actions[1..] == actions;
    }
  }

  lemma {:induction false} DiagnosticsRoundTrip(diagnostics: seq<Diagnostic>)
    ensures DiagnosticsOf(DiagnosticDicts(diagnostics)) == Some(diagnostics)
  {
    if diagnostics != [] {
      assert Keys(DiagnosticDict(diagnostics[0]).fields) == DiagnosticKeys;
      DiagnosticsRoundTrip(diagnostics[1..]);
      assert DiagnosticDicts(diagnostics)[1..] == DiagnosticDicts(diagnostics[1..]);
      assert [diagnostics[0]] + diagnostics[1..] == diagnostics;
    }
  }

  /** A list whose every element is the string at the same place reads back as those strings. */
  lemma {:induction false} StringsOfStrs(vs: seq<Value>, strings: seq<string>)
    requires |vs| == |strings|
    requires forall i :: 0 <= i < |vs| ==> vs[i] == Str(strings[i])
    ensures StringsOf(vs) == Some(strings)
  {
    if vs != [] {
      var tail, rest := vs[1..], strings[1..];
      forall i | 0 <= i < |tail|
        ensures tail[i] == Str(rest[i])
      {
        assert tail[i] == vs[i + 1];
      }
      StringsOfStrs(tail, rest);
      assert strings == [strings[0]] + rest;
    }
  }

  lemma StringsRoundTrip(artifacts: seq<string>)
    ensures StringsOf(StrValues(artifacts)) == Some(artifacts)
  {
    StringsOfStrs(StrValues(artifacts), artifacts);
  }

  /**
   * `to_dict` keeps everything: `ok` and `summary` unchanged, the actions,
   * diagnostics and artifacts element by element in order.
   */
  lemma ToDictRoundTrip(r: Report)
    ensures FromDict(ToDict(r)) == Some(r)
  {
    ActionsRoundTrip(r.actions);
    DiagnosticsRoundTrip(r.diagnostics);
    StringsRoundTrip(r.artifacts);
  }

  /** The JSON form: `json.dumps` is a parameter. */
  type JsonDumper = Value -> string

  /** `emit_report`: what is written to standard output. */
  function EmitReport(r: Report, jsonOutput: bool, dumps: JsonDumper): (out: string)
    ensures !jsonOutput ==> |out| == |r.summary| + 1 && out[..|r.summary|] == r.summary && out[|r.summary|] == '\n'
    ensures |out| >= 1
    ensures jsonOutput ==> out[..|out| - 1] == dumps(ToDict(r)) && out[|out| - 1] == '\n'
  {
    if jsonOutput then dumps(ToDict(r)) + "\n" else r.summary + "\n"
  }

  /** `action_from_proc`. */
  function ActionFromProc(cmd: seq<string>, cwd: Path, exitCode: int, stdout: string, stderr: string): (a: Action)
    ensures a.cwd == Display(cwd) && a.exitCode == exitCode && a.stdout == Some(stdout) && a.stderr == Some(stderr)
  {
    Action(Join(cmd, " "), Display(cwd), exitCode, Some(stdout), Some(stderr))
  }

  /** The recorded command line splits back into the command's words when no word holds a space. */
  lemma ActionFromProcCmd(cmd: seq<string>, cwd: Path, exitCode: int, stdout: string, stderr: string)
    requires |cmd| >= 1 && FreeOf(cmd, ' ')
    ensures Split(ActionFromProc(cmd, cwd, exitCode, stdout, stderr).cmd, " ", -1) == cmd
  {
    JoinSplit(cmd, " ");
  }
}
