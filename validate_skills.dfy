/**
 * Model of tools/validate_skills.py: front-matter loading, the per-skill
 * checks (name equals directory name, name matches NAME_RE) and the
 * aggregation of diagnostics into an exit code.
 */
module ValidateSkills {
  import opened Wrappers
  import opened Text
  import opened Paths
  import opened PyValues
  import NewSkill

  const Delimiter := "---"
  const FrontMatterSplit := 3

  datatype SkillMeta = SkillMeta(name: string, description: string)

  datatype Diagnostic = Diagnostic(level: string, message: string)

  function SkillFile(skillPath: Path): Path {
    skillPath + ["SKILL.md"]
  }

  /** `load_front_matter`, given the text of SKILL.md and the YAML loader. */
  function LoadFrontMatter(skillPath: Path, content: string, yaml: YamlLoader): (r: Result<SkillMeta, Exception>)
    ensures r.Failure? && r.error.ValueError? <==>
              !StartsWith(content, Delimiter) || |Split(content, Delimiter, 2)| < FrontMatterSplit
    ensures !StartsWith(content, Delimiter) ==>
              r == Failure(ValueError(Display(SkillFile(skillPath)) + " missing front matter"))
    ensures StartsWith(content, Delimiter) && |Split(content, Delimiter, 2)| < FrontMatterSplit ==>
              r == Failure(ValueError(Display(SkillFile(skillPath)) + " front matter not closed"))
    ensures StartsWith(content, Delimiter) && |Split(content, Delimiter, 2)| >= FrontMatterSplit ==>
              var data := yaml(Split(content, Delimiter, 2)[1]);
              && (!data.Dict? ==> r == Failure(TypeError(Display(SkillFile(skillPath)) + " front matter invalid")))
              && (data.Dict? && (StrField(data, "name").None? || StrField(data, "description").None?) ==>
                    r == Failure(TypeError(Display(SkillFile(skillPath)) + " requires name and description")))
              && (r.Success? <==> StrField(data, "name").Some? && StrField(data, "description").Some?)
    ensures r.Success? ==>
              var data := yaml(Split(content, Delimiter, 2)[1]);
              StrField(data, "name") == Some(r.value.name) && StrField(data, "description") == Some(r.value.description)
  {
    var file := Display(SkillFile(skillPath));
    if !StartsWith(content, Delimiter) then Failure(ValueError(file + " missing front matter"))
    else
      var parts := Split(content, Delimiter, 2);
      if |parts| < FrontMatterSplit then Failure(ValueError(file + " front matter not closed"))
      else
        var data := yaml(parts[1]);
        if !data.Dict? then Failure(TypeError(file + " front matter invalid"))
        else
          var name := StrField(data, "name");
          var description := StrField(data, "description");
          if name.None? || description.None? then Failure(TypeError(file + " requires name and description"))
          else Success(SkillMeta(name.value, description.value))
  }

  /** Text that opens with `---` and holds another `---` later is cut into three pieces. */
  lemma {:induction false} TwoDelimitersGiveThreeParts(x: string, y: string)
    ensures var content := Delimiter + x + Delimiter + y;
      StartsWith(content, Delimiter) && |Split(content, Delimiter, 2)| == FrontMatterSplit
  {
    var content := Delimiter + x + Delimiter + y;
    assert content[..3] == Delimiter;
    FindIsFirst(content, Delimiter, 0);
    var after := content[3..];
    assert after == x + Delimiter + y;
    assert OccursAt(after, Delimiter, |x|) by {
      assert after[|x|..|x| + 3] == Delimiter;
    }
    var k := Find(after, Delimiter).value;
    assert Split(content, Delimiter, 2) == [content[..0]] + Split(after, Delimiter, 1);
    assert Split(after, Delimiter, 1) == [after[..k]] + Split(after[k + 3..], Delimiter, 0);
  }

  /**
   * The block handed to the YAML loader is the text between the first and
   * the second `---`, when the block holds no `---` and does not end in `-`.
   */
  lemma {:induction false} BlockBetweenDelimiters(block: string, rest: string)
    requires !Contains(block, Delimiter)
    requires block == [] || block[|block| - 1] != '-'
    ensures Split(Delimiter + block + Delimiter + rest, Delimiter, 2) == ["", block, rest]
  {
    var content := Delimiter + block + Delimiter + rest;
    assert content[..3] == Delimiter;
    FindIsFirst(content, Delimiter, 0);
    var after := content[3..];
    assert after == block + Delimiter + rest;
    assert OccursAt(after, Delimiter, |block|) by {
      assert after[|block|..|block| + 3] == Delimiter;
    }
    forall j | 0 <= j < |block|
      ensures !OccursAt(after, Delimiter, j)
    {
      if j + 3 <= |block| {
        assert after[j..j + 3] == block[j..j + 3];
        assert !OccursAt(block, Delimiter, j);
      } else {
        assert after[j..j + 3][|block| - 1 - j] == after[|block| - 1] == block[|block| - 1];
      }
    }
    FindIsFirst(after, Delimiter, |block|);
    assert after[..|block|] == block;
    assert after[|block| + 3..] == rest;
    assert Split(content, Delimiter, 2) == [content[..0]] + Split(after, Delimiter, 1);
    assert Split(after, Delimiter, 1) == [block] + Split(rest, Delimiter, 0);
    assert content[..0] == "";
  }

  /** `validate_skill_dir`; a TypeError from loading is not caught. */
  function ValidateSkillDir(skillDir: Path, content: string, yaml: YamlLoader): (r: Result<seq<Diagnostic>, Exception>)
    ensures r.Failure? <==> LoadFrontMatter(skillDir, content, yaml).Failure? && !LoadFrontMatter(skillDir, content, yaml).error.ValueError?
    ensures r.Success? ==> |r.value| <= 2 && forall i :: 0 <= i < |r.value| ==> r.value[i].level == "error"
  {
    match LoadFrontMatter(skillDir, content, yaml)
    case Failure(ValueError(msg)) => Success([Diagnostic("error", msg)])
    case Failure(e) => Failure(e)
    case Success(meta) =>
      var mismatch :=
        if meta.name != Name(skillDir) then [Diagnostic("error", Display(skillDir) + " name mismatch: " + meta.name)] else [];
      var invalid :=
        if !NewSkill.NameRe(meta.name) then [Diagnostic("error", Display(skillDir) + " invalid name: " + meta.name)] else [];
      Success(mismatch + invalid)
  }

  /** A structural error becomes exactly one error diagnostic and nothing else is checked. */
  lemma StructuralErrorIsOneDiagnostic(skillDir: Path, content: string, yaml: YamlLoader)
    requires !StartsWith(content, Delimiter) || |Split(content, Delimiter, 2)| < FrontMatterSplit
    ensures ValidateSkillDir(skillDir, content, yaml) ==
              Success([Diagnostic("error", LoadFrontMatter(skillDir, content, yaml).error.message)])
  {
  }

  /**
   * For loaded metadata: no diagnostic exactly when the declared name is the
   * directory name and matches NAME_RE; a mismatch is reported first, an
   * invalid name after it.
   */
  lemma NameChecks(skillDir: Path, content: string, yaml: YamlLoader)
    requires LoadFrontMatter(skillDir, content, yaml).Success?
    ensures var name := LoadFrontMatter(skillDir, content, yaml).value.name;
      var r := ValidateSkillDir(skillDir, content, yaml);
      var mismatch := Diagnostic("error", Display(skillDir) + " name mismatch: " + name);
      var invalid := Diagnostic("error", Display(skillDir) + " invalid name: " + name);
      && r.Success?
      && (r.value == [] <==> name == Name(skillDir) && NewSkill.NameRe(name))
      && (name != Name(skillDir) ==> r.value[0] == mismatch)
      && (!NewSkill.NameRe(name) ==> r.value[|r.value| - 1] == invalid)
      && |r.value| == (if name != Name(skillDir) then 1 else 0) + (if NewSkill.NameRe(name) then 0 else 1)
  {
  }

  /**
   * Every SKILL.md the scaffold command writes gets past both delimiter
   * checks: loading it never raises ValueError, whatever the arguments.
   */
  lemma ScaffoldPassesDelimiterChecks(skillDir: Path, name: string, description: string,
                                      compatibility: Option<string>, yaml: YamlLoader)
    ensures var md := NewSkill.BuildSkillMd(name, description, compatibility);
      StartsWith(md, Delimiter) && |Split(md, Delimiter, 2)| == 3
      && !(LoadFrontMatter(skillDir, md, yaml).Failure? && LoadFrontMatter(skillDir, md, yaml).error.ValueError?)
  {
    TwoDelimitersGiveThreeParts(NewSkill.FrontMatterBlock(name, description, compatibility), NewSkill.SkillMdBody(name));
  }


  /** A piece without `---`, followed by a character other than `-`, then another such piece. */
  lemma NoDelimiterAcross(a: string, c: char, b: string)
    requires !Contains(a, Delimiter) && !Contains(b, Delimiter) && c != '-'
    ensures !Contains(a + [c] + b, Delimiter)
  {
    var s := a + [c] + b;
    forall i | 0 <= i <= |s| - 3
      ensures !OccursAt(s, Delimiter, i)
    {
      if i + 3 <= |a| {
        assert s[i..i + 3] == a[i..i + 3];
        assert !OccursAt(a, Delimiter, i);
      } else if i > |a| {
        assert s[i..i + 3] == b[i - |a| - 1..i - |a| + 2];
        assert !OccursAt(b, Delimiter, i - |a| - 1);
      } else {
        assert s[i..i + 3][|a| - i] == s[|a|] == c;
      }
    }
  }

  lemma NoHyphenNoDelimiter(s: string)
    requires forall i :: 0 <= i < |s| ==> s[i] != '-'
    ensures !Contains(s, Delimiter)
  {
    forall i | 0 <= i <= |s| - 3
      ensures !OccursAt(s, Delimiter, i)
    {
      assert s[i..i + 3][0] == s[i];
    }
  }

  /** A name of the shape the rule describes never contains `---`. */
  lemma ShapedNameHasNoDelimiter(name: string)
    requires NewSkill.NameShape(name)
    ensures !Contains(name, Delimiter)
  {
    forall i | 0 <= i <= |name| - 3
      ensures !OccursAt(name, Delimiter, i)
    {
      if name[i + 1] == '-' {
        assert name[i] != '-';
      }
      assert name[i..i + 3][0] == name[i] && name[i..i + 3][1] == name[i + 1];
    }
  }


  /**
   * When neither the name, the description nor the compatibility text
   * contains `---`, the loader sees exactly the template's front-matter
   * block.
   */
  lemma {:induction false} ScaffoldBlockIsLoaded(name: string, description: string, compatibility: Option<string>)
    requires !Contains(name, Delimiter) && !Contains(description, Delimiter)
    requires compatibility.Some? ==> !Contains(compatibility.value, Delimiter)
    ensures var md := NewSkill.BuildSkillMd(name, description, compatibility);
      Split(md, Delimiter, 2) == ["", NewSkill.FrontMatterBlock(name, description, compatibility), NewSkill.SkillMdBody(name)]
  {
    var nl := NewSkill.NameLine(name);
    var dl := NewSkill.DescriptionLine(description);
    var cl := NewSkill.CompatibilityLine(compatibility);
    NoHyphenNoDelimiter("name:");
    NoHyphenNoDelimiter("description:");
    NoHyphenNoDelimiter("compatibility:");
    NoHyphenNoDelimiter("");
    NoDelimiterAcross("name:", ' ', name);
    assert nl == ("name:" + [' '] + name) + "\n";
    NoDelimiterAcross("description:", ' ', description);
    assert dl == ("description:" + [' '] + description) + "\n";
    NoDelimiterAcross("", '\n', "name:" + [' '] + name);
    assert "\n" + nl == "" + ['\n'] + ("name:" + [' '] + name) + "\n";
    NoDelimiterAcross("" + ['\n'] + ("name:" + [' '] + name), '\n', "description:" + [' '] + description);
    var headBlock := "\n" + nl + dl;
    assert headBlock == ("" + ['\n'] + ("name:" + [' '] + name)) + ['\n'] + ("description:" + [' '] + description) + "\n";
    var beforeLast := ("" + ['\n'] + ("name:" + [' '] + name)) + ['\n'] + ("description:" + [' '] + description);
    var block := NewSkill.FrontMatterBlock(name, description, compatibility);
    if cl == "" {
      NoDelimiterAcross(beforeLast, '\n', "");
      assert block == beforeLast + ['\n'] + "";
    } else {
      var c := compatibility.value;
      NoDelimiterAcross("compatibility:", ' ', c);
      NoDelimiterAcross(beforeLast, '\n', "compatibility:" + [' '] + c);
      var upToCompat := beforeLast + ['\n'] + ("compatibility:" + [' '] + c);
      NoDelimiterAcross(upToCompat, '\n', "");
      assert block == upToCompat + ['\n'] + "";
    }
    assert block[|block| - 1] == '\n';
    BlockBetweenDelimiters(block, NewSkill.SkillMdBody(name));
  }

  /**
   * The scaffold command's output passes the validator: for a name that
   * matches the naming rule, written into the directory of that name, and a
   * YAML loader that reads the block's `name` and `description` back,
   * validation reports nothing.
   */
  lemma ScaffoldValidates(skillDir: Path, name: string, description: string,
                          compatibility: Option<string>, yaml: YamlLoader)
    requires NewSkill.ValidateNameStrict(name).Pass?
    requires Name(skillDir) == name
    requires !Contains(description, Delimiter)
    requires compatibility.Some? ==> !Contains(compatibility.value, Delimiter)
    requires var data := yaml(NewSkill.FrontMatterBlock(name, description, compatibility));
      StrField(data, "name") == Some(name) && StrField(data, "description") == Some(description)
    ensures ValidateSkillDir(skillDir, NewSkill.BuildSkillMd(name, description, compatibility), yaml) == Success([])
  {
    ShapedNameHasNoDelimiter(name);
    ScaffoldBlockIsLoaded(name, description, compatibility);
    ScaffoldPassesDelimiterChecks(skillDir, name, description, compatibility, yaml);
    NewSkill.StrictImpliesAsWritten(name);
    CleanSkillValidates(skillDir, NewSkill.BuildSkillMd(name, description, compatibility), yaml, name, description);
  }

  /** A SKILL.md whose block loads the directory's own, well-formed name validates cleanly. */
  lemma CleanSkillValidates(skillDir: Path, content: string, yaml: YamlLoader, name: string, description: string)
    requires StartsWith(content, Delimiter) && |Split(content, Delimiter, 2)| == FrontMatterSplit
    requires var data := yaml(Split(content, Delimiter, 2)[1]);
      StrField(data, "name") == Some(name) && StrField(data, "description") == Some(description)
    requires Name(skillDir) == name && NewSkill.NameRe(name)
    ensures ValidateSkillDir(skillDir, content, yaml) == Success([])
  {
    assert LoadFrontMatter(skillDir, content, yaml) == Success(SkillMeta(name, description));
  }


  /** The result of `main`: an exit code and what was written, or an exception that escaped. */
  datatype MainOutcome = Exit(code: int, stdout: string) | Raised(exception: Exception)

  /** A found SKILL.md: its path and its text. */
  datatype SkillFileEntry = SkillFileEntry(path: Path, content: string)

  function ValidateEntry(e: SkillFileEntry, yaml: YamlLoader): Result<seq<Diagnostic>, Exception> {
    ValidateSkillDir(Parent(e.path), e.content, yaml)
  }

  /** The per-skill check the loop applies. */
  type SkillCheck = SkillFileEntry -> Result<seq<Diagnostic>, Exception>

  function Checker(yaml: YamlLoader): SkillCheck {
    e => ValidateEntry(e, yaml)
  }

  /** The diagnostics of the skills in order, or the first exception raised. */
  function Collect(found: seq<SkillFileEntry>, check: SkillCheck): Result<seq<Diagnostic>, Exception>
  {
    if found == [] then Success([])
    else match Collect(found[..|found| - 1], check)
      case Failure(e) => Failure(e)
      case Success(ds) =>
        match check(found[|found| - 1])
        case Failure(e) => Failure(e)
        case Success(more) => Success(ds + more)
  }

  function RenderDiagnostics(ds: seq<Diagnostic>): string {
    if ds == [] then ""
    else RenderDiagnostics(ds[..|ds| - 1]) + "[" + ds[|ds| - 1].level + "] " + ds[|ds| - 1].message + "\n"
  }

  /** `main`, after the discovery of the SKILL.md files. */
  function MainSpec(found: seq<SkillFileEntry>, yaml: YamlLoader): MainOutcome {
    match Collect(found, Checker(yaml))
    case Failure(e) => Raised(e)
    case Success(ds) => if ds != [] then Exit(1, RenderDiagnostics(ds)) else Exit(0, "All skills valid\n")
  }

  /** `main`'s loop, extending the list of diagnostics skill by skill. */
  method Run(found: seq<SkillFileEntry>, yaml: YamlLoader) returns (outcome: MainOutcome)
    ensures outcome == MainSpec(found, yaml)
  {
    var diagnostics: seq<Diagnostic> := [];
    for i := 0 to |found|
      invariant Collect(found[..i], Checker(yaml)) == Success(diagnostics)
    {
      assert found[..i + 1][..i] == found[..i];
      var r := ValidateEntry(found[i], yaml);
      if r.Failure? {
        assert Collect(found[..i + 1], Checker(yaml)) == Failure(r.error);
        CollectFailurePropagates(found, i + 1, Checker(yaml));
        return Raised(r.error);
      }
      diagnostics := diagnostics + r.value;
    }
    assert found[..|found|] == found;
    if diagnostics != [] {
      outcome := Exit(1, RenderDiagnostics(diagnostics));
    } else {
      outcome := Exit(0, "All skills valid\n");
    }
  }

  /** Once a prefix raises, the whole run raises the same exception. */
  lemma {:induction false} CollectFailurePropagates(found: seq<SkillFileEntry>, n: nat, check: SkillCheck)
    requires n <= |found| && Collect(found[..n], check).Failure?
    ensures Collect(found, check) == Collect(found[..n], check)
    decreases |found| - n
  {
    if n < |found| {
      assert found[..n + 1][..n] == found[..n];
      CollectFailurePropagates(found, n + 1, check);
    } else {
      assert found[..n] == found;
    }
  }

  lemma CollectStep(found: seq<SkillFileEntry>, check: SkillCheck)
    requires found != []
    ensures var c := Collect(found, check);
      var init := Collect(found[..|found| - 1], check);
      var last := check(found[|found| - 1]);
      && (c.Success? <==> init.Success? && last.Success?)
      && (c == Success([]) <==> init == Success([]) && last == Success([]))
  {
    var init := Collect(found[..|found| - 1], check);
    var last := check(found[|found| - 1]);
    if init.Success? && last.Success? {
      assert |init.value + last.value| == |init.value| + |last.value|;
    }
  }

  /** Collect succeeds exactly when no skill raises. */
  lemma {:induction false} CollectSucceeds(found: seq<SkillFileEntry>, check: SkillCheck)
    ensures Collect(found, check).Success? <==> forall i :: 0 <= i < |found| ==> check(found[i]).Success?
  {
    if found != [] {
      var init := found[..|found| - 1];
      CollectSucceeds(init, check);
      CollectStep(found, check);
      assert forall i :: 0 <= i < |init| ==> init[i] == found[i];
    }
  }

  /** Collect yields no diagnostic exactly when every skill is clean. */
  lemma {:induction false} CollectClean(found: seq<SkillFileEntry>, check: SkillCheck)
    ensures Collect(found, check) == Success([]) <==> forall i :: 0 <= i < |found| ==> check(found[i]) == Success([])
  {
    if found != [] {
      var init := found[..|found| - 1];
      CollectClean(init, check);
      CollectStep(found, check);
      assert forall i :: 0 <= i < |init| ==> init[i] == found[i];
    }
  }

  /**
   * `main` exits 0 with "All skills valid" exactly when every skill
   * validates with no diagnostic, and exits 1 when no exception escapes
   * and some skill has a diagnostic.
   */
  lemma MainExitCode(found: seq<SkillFileEntry>, yaml: YamlLoader)
    ensures MainSpec(found, yaml) == Exit(0, "All skills valid\n") <==>
              forall i :: 0 <= i < |found| ==> ValidateEntry(found[i], yaml) == Success([])
    ensures MainSpec(found, yaml).Exit? && MainSpec(found, yaml).code == 1 <==>
              (forall i :: 0 <= i < |found| ==> ValidateEntry(found[i], yaml).Success?)
              && exists i :: 0 <= i < |found| && ValidateEntry(found[i], yaml) != Success([])
  {
    CollectSucceeds(found, Checker(yaml));
    CollectClean(found, Checker(yaml));
  }
}
