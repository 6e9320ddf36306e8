/**
 * Model of tools/new_skill.py: the skill-name rule, the SKILL.md template
 * and the target-path rule of the scaffold command.
 */
module NewSkill {
  import opened Wrappers
  import opened Text
  import opened Paths

  const MaxNameLength := 64

  const TooLongMessage := "name must be <= 64 characters"
  const PatternMessage := "name must be lowercase alnum and hyphens, no leading/trailing hyphen"

  predicate IsLowerAlnum(c: char) {
    'a' <= c <= 'z' || '0' <= c <= '9'
  }

  /** One `[a-z0-9]+` group of the name pattern. */
  predicate IsGroup(g: string) {
    |g| > 0 && forall j :: 0 <= j < |g| ==> IsLowerAlnum(g[j])
  }

  /**
   * The body `[a-z0-9]+(?:-[a-z0-9]+)*` of NAME_RE, matched against the
   * whole of `s`: every piece between hyphens is a non-empty group.
   */
  predicate NameBody(s: string) {
    var groups := Split(s, "-", -1);
    forall i :: 0 <= i < |groups| ==> IsGroup(groups[i])
  }

  /**
   * `NAME_RE.match(s)` as written: `^...$` where Python's `$` also matches
   * just before a newline that ends the string.
   */
  predicate NameRe(s: string) {
    NameBody(s) || (|s| > 0 && s[|s| - 1] == '\n' && NameBody(s[..|s| - 1]))
  }

  /**
   * The rule in words: non-empty; only lower-case letters, digits and
   * hyphens; no leading, trailing or doubled hyphen.
   */
  predicate NameShape(s: string) {
    && |s| > 0
    && (forall i :: 0 <= i < |s| ==> IsLowerAlnum(s[i]) || s[i] == '-')
    && s[0] != '-' && s[|s| - 1] != '-'
    && (forall i :: 0 < i < |s| && s[i] == '-' ==> s[i - 1] != '-')
  }

  lemma OccursAtHyphen(s: string, j: int)
    requires 0 <= j < |s|
    ensures OccursAt(s, "-", j) <==> s[j] == '-'
  {
    if s[j] == '-' {
      assert s[j..j + 1] == "-";
    } else {
      assert s[j..j + 1][0] == s[j];
    }
  }

  /** The pattern's groups-joined-by-hyphens reading agrees with the rule in words. */
  lemma {:induction false} NameBodyIsShape(s: string)
    ensures NameBody(s) <==> NameShape(s)
    decreases |s|
  {
    var groups := Split(s, "-", -1);
    match Find(s, "-")
    case None =>
      assert groups == [s];
      forall i | 0 <= i < |s|
        ensures s[i] != '-'
      {
        OccursAtHyphen(s, i);
      }
      assert groups[0] == s;
      if NameBody(s) {
        assert IsGroup(groups[0]);
      }
    case Some(k) =>
      var head, rest := s[..k], s[k + 1..];
      assert groups == [head] + Split(rest, "-", -1);
      assert s == head + "-" + rest;
      OccursAtHyphen(s, k);
      forall i | 0 <= i < k
        ensures s[i] != '-'
      {
        OccursAtHyphen(s, i);
      }
      NameBodyIsShape(rest);
      if NameBody(s) {
        assert IsGroup(groups[0]);
        assert NameBody(rest) by {
          forall i | 0 <= i < |Split(rest, "-", -1)|
            ensures IsGroup(Split(rest, "-", -1)[i])
          {
            assert Split(rest, "-", -1)[i] == groups[i + 1];
          }
        }
        assert NameShape(s) by {
          forall i | 0 < i < |s| && s[i] == '-'
            ensures s[i - 1] != '-'
          {
            if i > k + 1 {
              assert rest[i - k - 1] == s[i];
            }
          }
        }
      }
      if NameShape(s) {
        assert k > 0;
        assert IsGroup(head);
        assert NameShape(rest) by {
          assert rest[0] == s[k + 1];
          forall i | 0 < i < |rest| && rest[i] == '-'
            ensures rest[i - 1] != '-'
          {
            assert rest[i] == s[k + 1 + i];
          }
        }
        forall i | 0 <= i < |groups|
          ensures IsGroup(groups[i])
        {
          if i > 0 {
            assert groups[i] == Split(rest, "-", -1)[i - 1];
          }
        }
      }
  }

  /** `validate_name`: the length limit is checked first, then NAME_RE. */
  function ValidateName(name: string): (r: Outcome<string>)
    ensures |name| > MaxNameLength ==> r == Fail(TooLongMessage)
    ensures |name| <= MaxNameLength && !NameRe(name) ==> r == Fail(PatternMessage)
    ensures r.Pass? <==> |name| <= MaxNameLength && NameRe(name)
  {
    if |name| > MaxNameLength then Fail(TooLongMessage)
    else if !NameRe(name) then Fail(PatternMessage)
    else Pass
  }

  /** Every accepted name has between 1 and 64 characters. */
  lemma AcceptedNameLength(name: string)
    requires ValidateName(name).Pass?
    ensures 1 <= |name| <= MaxNameLength
  {
    if NameBody(name) {
      NameBodyIsShape(name);
    } else {
      NameBodyIsShape(name[..|name| - 1]);
    }
  }

  /**
   * As written, a name that ends in a newline passes `validate_name`,
   * although the rule in words forbids any character but [a-z0-9-].
   */
  lemma TrailingNewlineAccepted()
    ensures ValidateName("a\n").Pass?
    ensures !NameShape("a\n")
  {
    assert Find("a", "-") == None by {
      assert "a"[0..1][0] == 'a';
    }
    assert Split("a", "-", -1) == ["a"];
    assert "a\n"[..1] == "a";
  }

  /** `validate_name` with the pattern matched in full (`re.fullmatch`). */
  function ValidateNameStrict(name: string): (r: Outcome<string>)
    ensures r.Pass? <==> |name| <= MaxNameLength && NameShape(name)
    ensures r.Pass? ==> forall i :: 0 <= i < |name| ==> name[i] != '\n' && name[i] != '_'
  {
    NameBodyIsShape(name);
    if |name| > MaxNameLength then Fail(TooLongMessage)
    else if !NameBody(name) then Fail(PatternMessage)
    else Pass
  }

  /** A strictly valid name is also accepted by the check as written. */
  lemma StrictImpliesAsWritten(name: string)
    requires ValidateNameStrict(name).Pass?
    ensures ValidateName(name).Pass?
  {
    NameBodyIsShape(name);
  }

  /** `compatibility` is used only when it is truthy (present and non-empty). */
  function CompatibilityLine(compatibility: Option<string>): string {
    if compatibility.Some? && compatibility.value != "" then "compatibility: " + compatibility.value + "\n"
    else ""
  }

  function NameLine(name: string): string {
    "name: " + name + "\n"
  }

  function DescriptionLine(description: string): string {
    "description: " + description + "\n"
  }

  /** The front-matter block of the template, between the two `---` lines. */
  function FrontMatterBlock(name: string, description: string, compatibility: Option<string>): string {
    "\n" + NameLine(name) + DescriptionLine(description) + CompatibilityLine(compatibility)
  }

  const TemplateTrailer :=
    "## What this skill does\n- TODO: describe behavior\n\n## Scripts\n"
    + "- Run: `uv run python scripts/run.py --cwd . --json --check`\n"
    + "- Apply: `uv run python scripts/run.py --cwd . --json --apply`\n\n"
    + "## Troubleshooting\nSee [references/REFERENCE.md](references/REFERENCE.md).\n"

  /** The template after the closing `---`: the `# name` heading and fixed sections. */
  function SkillMdBody(name: string): string {
    "\n\n# " + name + "\n\n" + TemplateTrailer
  }

  /** `build_skill_md`: opening delimiter, block, closing delimiter, body. */
  function BuildSkillMd(name: string, description: string, compatibility: Option<string>): string {
    "---" + FrontMatterBlock(name, description, compatibility) + "---" + SkillMdBody(name)
  }

  /** The first three lines of every template. */
  function TemplateHead(name: string, description: string): string {
    "---\n" + NameLine(name) + DescriptionLine(description)
  }

  lemma PrefixOfAppend(a: string, b: string)
    ensures StartsWith(a + b, a) && (a + b)[|a|..] == b
  {
    assert (a + b)[..|a|] == a;
  }

  /** Regrouping of the template's pieces, stated over plain variables. */
  lemma RegroupAtHead(open: string, nl: string, dl: string, cl: string, close: string, body: string)
    ensures open + ("\n" + nl + dl + cl) + close + body == (open + "\n" + nl + dl) + (cl + close + body)
  {
  }

  lemma RegroupAfterPrefix(p: string, c: string, close: string, body: string)
    ensures (p + c + "\n") + close + body == p + (c + "\n" + close + body)
  {
  }

  /** The template is its first three lines followed by the optional line, `---` and the body. */
  lemma TemplateSplitsAtHead(name: string, description: string, compatibility: Option<string>)
    ensures var md := BuildSkillMd(name, description, compatibility);
      var head := TemplateHead(name, description);
      StartsWith(md, head) && md[|head|..] == CompatibilityLine(compatibility) + "---" + SkillMdBody(name)
  {
    var nl, dl, cl := NameLine(name), DescriptionLine(description), CompatibilityLine(compatibility);
    var body := SkillMdBody(name);
    RegroupAtHead("---", nl, dl, cl, "---", body);
    assert "---" + "\n" == "---\n";
    PrefixOfAppend("---\n" + nl + dl, cl + "---" + body);
  }

  lemma FirstCharOfPrefix(s: string, p: string)
    requires StartsWith(s, p) && |p| > 0
    ensures s[0] == p[0]
  {
    assert s[..|p|][0] == s[0];
  }

  /** The body opens with the `# name` heading line. */
  lemma BodyOpensWithHeading(name: string)
    ensures StartsWith(SkillMdBody(name), "\n\n# " + name + "\n")
  {
    var t := TemplateTrailer;
    assert "\n\n" == "\n" + "\n";
    assert SkillMdBody(name) == ("\n\n# " + name + "\n") + ("\n" + t);
    PrefixOfAppend("\n\n# " + name + "\n", "\n" + t);
  }

  /**
   * The template starts with the opening delimiter, the name line and the
   * description line; what follows starts with a `compatibility:` line
   * exactly when the argument is truthy, and that line is followed by the
   * closing `---`; the `# name` heading comes right after that delimiter.
   */
  lemma {:induction false} TemplateLayout(name: string, description: string, compatibility: Option<string>)
    ensures var md := BuildSkillMd(name, description, compatibility);
      var head := TemplateHead(name, description);
      var truthy := compatibility.Some? && compatibility.value != "";
      && StartsWith(md, head)
      && (StartsWith(md[|head|..], "compatibility: ") <==> truthy)
      && (truthy ==> md[|head|..] == "compatibility: " + compatibility.value + "\n" + "---" + SkillMdBody(name))
      && (!truthy ==> md[|head|..] == "---" + SkillMdBody(name))
      && StartsWith(SkillMdBody(name), "\n\n# " + name + "\n")
  {
    TemplateSplitsAtHead(name, description, compatibility);
    var md := BuildSkillMd(name, description, compatibility);
    var tail := md[|TemplateHead(name, description)|..];
    var body := SkillMdBody(name);
    if compatibility.Some? && compatibility.value != "" {
      var c := compatibility.value;
      RegroupAfterPrefix("compatibility: ", c, "---", body);
      PrefixOfAppend("compatibility: ", c + "\n" + "---" + body);
    } else {
      assert tail == "---" + body;
      if StartsWith(tail, "compatibility: ") {
        FirstCharOfPrefix(tail, "compatibility: ");
        FirstCharOfPrefix(tail, "---");
      }
    }
    BodyOpensWithHeading(name);
  }

  function BuildRunPy(): string {
    "from __future__ import annotations\n\n"
    + "from skillkit import ExitCode, Report, emit_report, parse_script_args\n\n\n"
    + "def main() -> int:\n"
    + "    options = parse_script_args()\n"
    + "    report = Report(ok=True, summary=\"TODO: implement\")\n"
    + "    emit_report(report, json_output=options.json)\n"
    + "    return int(ExitCode.SUCCESS)\n\n\n"
    + "if __name__ == \"__main__\":\n"
    + "    raise SystemExit(main())\n"
  }

  function BuildReferenceMd(): string {
    "# Reference\n\nTODO: detailed usage and troubleshooting.\n"
  }

  /** The `--tier` choices. */
  datatype Tier = Curated | Experimental | System {
    function Label(): string {
      match this
      case Curated => "curated"
      case Experimental => "experimental"
      case System => "system"
    }
  }

  /** `Path("skills") / f".{tier}" / name`. */
  function TargetDir(tier: Tier, name: string): (p: Path)
    ensures |p| == 3 && p[0] == "skills" && Name(p) == name && Name(Parent(p)) == "." + tier.Label()
  {
    ["skills", "." + tier.Label(), name]
  }

  /** What a run of the scaffold command ends with. */
  datatype ScaffoldOutcome =
    | InvalidName(message: string)        // ValueError from validate_name
    | AlreadyExists(message: string)      // SystemExit with "{base_dir} already exists"
    | Created(files: seq<(Path, string)>, stdout: string)

  /** The three files `write_scaffold` writes under `base`. */
  function ScaffoldFiles(base: Path, name: string, description: string, compatibility: Option<string>)
    : (files: seq<(Path, string)>)
    ensures |files| == 3
    ensures forall i :: 0 <= i < 3 ==> |files[i].0| > |base| && files[i].0[..|base|] == base
    ensures files[0] == (base + ["SKILL.md"], BuildSkillMd(name, description, compatibility))
  {
    var skillMd := base + ["SKILL.md"];
    var runPy := base + ["scripts", "run.py"];
    var reference := base + ["references", "REFERENCE.md"];
    assert skillMd[..|base|] == base && runPy[..|base|] == base && reference[..|base|] == base;
    [(skillMd, BuildSkillMd(name, description, compatibility)),
     (runPy, BuildRunPy()),
     (reference, BuildReferenceMd())]
  }

  /**
   * `main` after argument parsing, with the existing paths given as a set:
   * the name is validated, an existing target stops the command before any
   * file is written, otherwise SKILL.md, scripts/run.py and
   * references/REFERENCE.md are written under the target.
   */
  function Scaffold(name: string, description: string, compatibility: Option<string>, tier: Tier,
                    existing: set<Path>): (r: ScaffoldOutcome)
    ensures ValidateName(name).Fail? <==> r.InvalidName?
    ensures r.InvalidName? ==> r.message == ValidateName(name).error
    ensures ValidateName(name).Pass? && TargetDir(tier, name) in existing <==> r.AlreadyExists?
    ensures r.Created? <==> ValidateName(name).Pass? && TargetDir(tier, name) !in existing
    ensures r.Created? ==> r.files == ScaffoldFiles(TargetDir(tier, name), name, description, compatibility)
  {
    var check := ValidateName(name);
    if check.Fail? then InvalidName(check.error)
    else
      var base := TargetDir(tier, name);
      if base in existing then AlreadyExists(Display(base) + " already exists")
      else
        Created(ScaffoldFiles(base, name, description, compatibility), "Created " + Display(base) + "\n")
  }
}
