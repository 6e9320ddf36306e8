/**
 * Model of tools/build_index.py: loading each skill's metadata into an
 * index entry and ordering the index by (tier, name).
 */
module BuildIndex {
  import opened Wrappers
  import opened Text
  import opened Paths
  import opened PyValues
  import opened Ordering
  import NewSkill

  const Delimiter := "---"
  const FrontMatterSplit := 3

  /** One element of skills/index.json. */
  datatype SkillEntry = SkillEntry(name: string, description: string, path: string, tier: string)

  /** The tier of a skill: its parent directory's name without leading dots. */
  function TierOf(skillDir: Path): (r: Option<string>)
    ensures r.None? <==> skillDir == []
    ensures r.Some? ==> r.value == LStrip(Name(Parent(skillDir)), '.')
  {
    if skillDir == [] then None else Some(LStrip(Name(Parent(skillDir)), '.'))
  }

  /** `load_meta`, given the text of the skill's SKILL.md and the YAML loader. */
  function LoadMeta(skillDir: Path, content: string, yaml: YamlLoader): (r: Result<SkillEntry, Exception>)
    ensures r.Failure? && r.error.ValueError? <==> |Split(content, Delimiter, 2)| < FrontMatterSplit
    ensures r.Failure? && r.error.ValueError? ==> r.error.message == Display(skillDir) + " invalid front matter"
    ensures |Split(content, Delimiter, 2)| >= FrontMatterSplit ==>
              var data := yaml(Split(content, Delimiter, 2)[1]);
              && (!data.Dict? ==> r == Failure(TypeError(Display(skillDir) + " invalid front matter")))
              && (data.Dict? && (StrField(data, "name").None? || StrField(data, "description").None?) ==>
                    r == Failure(TypeError(Display(skillDir) + " missing name/description")))
              && (StrField(data, "name").Some? && StrField(data, "description").Some? && skillDir == [] ==>
                    r == Failure(IndexError("0")))
              && (r.Success? <==> StrField(data, "name").Some? && StrField(data, "description").Some? && skillDir != [])
    ensures r.Success? ==>
              var data := yaml(Split(content, Delimiter, 2)[1]);
              && StrField(data, "name") == Some(r.value.name)
              && StrField(data, "description") == Some(r.value.description)
              && r.value.path == Display(skillDir)
              && TierOf(skillDir) == Some(r.value.tier)
  {
    var parts := Split(content, Delimiter, 2);
    if |parts| < FrontMatterSplit then Failure(ValueError(Display(skillDir) + " invalid front matter"))
    else
      var data := yaml(parts[1]);
      if !data.Dict? then Failure(TypeError(Display(skillDir) + " invalid front matter"))
      else
        var name := StrField(data, "name");
        var description := StrField(data, "description");
        if name.None? || description.None? then Failure(TypeError(Display(skillDir) + " missing name/description"))
        else match TierOf(skillDir)
          case None => Failure(IndexError("0"))
          case Some(tier) => Success(SkillEntry(name.value, description.value, Display(skillDir), tier))
  }

  /**
   * Unlike the validator, the index builder does not require SKILL.md to
   * open with `---`: any text before the first delimiter is skipped.
   */
  lemma LeadingTextIgnored(skillDir: Path, lead: string, content: string, yaml: YamlLoader)
    requires !Contains(lead, Delimiter) && (lead == [] || lead[|lead| - 1] != '-')
    requires StartsWith(content, Delimiter)
    ensures LoadMeta(skillDir, lead + content, yaml) == LoadMeta(skillDir, content, yaml)
  {
    LeadingTextSplit(lead, content);
  }

  lemma {:induction false} LeadingTextSplit(lead: string, content: string)
    requires !Contains(lead, Delimiter) && (lead == [] || lead[|lead| - 1] != '-')
    requires StartsWith(content, Delimiter)
    ensures var a := Split(lead + content, Delimiter, 2);
      var b := Split(content, Delimiter, 2);
      |a| == |b| && a[1..] == b[1..]
  {
    var s := lead + content;
    assert OccursAt(s, Delimiter, |lead|) by {
      assert s[|lead|..|lead| + 3] == content[..3];
    }
    forall j | 0 <= j < |lead|
      ensures !OccursAt(s, Delimiter, j)
    {
      if j + 3 <= |lead| {
        assert s[j..j + 3] == lead[j..j + 3];
        assert !OccursAt(lead, Delimiter, j);
      } else {
        assert s[j..j + 3][|lead| - 1 - j] == s[|lead| - 1] == lead[|lead| - 1];
      }
    }
    FindIsFirst(s, Delimiter, |lead|);
    assert content[..3] == Delimiter;
    FindIsFirst(content, Delimiter, 0);
    assert s[|lead| + 3..] == content[3..];
  }

  /** The per-skill load the list comprehension applies. */
  type SkillLoader = ((Path, string)) -> Result<SkillEntry, Exception>

  function Loader(yaml: YamlLoader): SkillLoader {
    (d: (Path, string)) => LoadMeta(d.0, d.1, yaml)
  }

  /** The list comprehension of `build_index`: every skill loaded in order, or the first exception. */
  function LoadAll(dirs: seq<(Path, string)>, load: SkillLoader): (r: Result<seq<SkillEntry>, Exception>)
    ensures r.Success? ==> |r.value| == |dirs|
  {
    if dirs == [] then Success([])
    else match load(dirs[0])
      case Failure(e) => Failure(e)
      case Success(entry) =>
        match LoadAll(dirs[1..], load)
        case Failure(e) => Failure(e)
        case Success(rest) => Success([entry] + rest)
  }

  /** The loaded entries are the skills' metadata, position by position; a failure is the first skill's failure. */
  lemma {:induction false} LoadAllCharacterized(dirs: seq<(Path, string)>, load: SkillLoader)
    ensures LoadAll(dirs, load).Success? <==> forall i :: 0 <= i < |dirs| ==> load(dirs[i]).Success?
    ensures LoadAll(dirs, load).Success? ==>
              forall i :: 0 <= i < |dirs| ==> LoadAll(dirs, load).value[i] == load(dirs[i]).value
    ensures LoadAll(dirs, load).Failure? ==>
              exists i :: 0 <= i < |dirs| && load(dirs[i]) == Failure(LoadAll(dirs, load).error)
                && forall j :: 0 <= j < i ==> load(dirs[j]).Success?
  {
    if dirs != [] {
      LoadAllCharacterized(dirs[1..], load);
      assert forall i :: 1 <= i < |dirs| ==> dirs[1..][i - 1] == dirs[i];
      if LoadAll(dirs, load).Failure? && load(dirs[0]).Success? {
        var i :| 0 <= i < |dirs[1..]| && load(dirs[1..][i]) == Failure(LoadAll(dirs[1..], load).error)
                 && forall j :: 0 <= j < i ==> load(dirs[1..][j]).Success?;
        assert load(dirs[i + 1]) == Failure(LoadAll(dirs, load).error);
        forall j | 0 <= j < i + 1
          ensures load(dirs[j]).Success?
        {
          if j > 0 {
            assert dirs[1..][j - 1] == dirs[j];
          }
        }
      }
    }
  }

  /** The sort key of an index entry. */
  function EntryKey(e: SkillEntry): seq<string> {
    [e.tier, e.name]
  }

  /** `build_index`: load every skill, then sort by (tier, name). */
  function Build(dirs: seq<(Path, string)>, yaml: YamlLoader): Result<seq<SkillEntry>, Exception> {
    match LoadAll(dirs, Loader(yaml))
    case Failure(e) => Failure(e)
    case Success(entries) => Success(SortBy(entries, EntryKey))
  }

  /**
   * The index holds exactly the loaded entries, as a multiset, ordered by
   * tier and then by name; it fails exactly when some skill fails to load.
   */
  lemma BuildIsSortedPermutation(dirs: seq<(Path, string)>, yaml: YamlLoader)
    ensures Build(dirs, yaml).Success? <==> forall i :: 0 <= i < |dirs| ==> LoadMeta(dirs[i].0, dirs[i].1, yaml).Success?
    ensures Build(dirs, yaml).Success? ==>
              var index := Build(dirs, yaml).value;
              && |index| == |dirs|
              && multiset(index) == multiset(LoadAll(dirs, Loader(yaml)).value)
              && (forall i :: 0 <= i < |dirs| ==> LoadMeta(dirs[i].0, dirs[i].1, yaml).value in index)
              && SortedBy(index, EntryKey)
  {
    LoadAllCharacterized(dirs, Loader(yaml));
    if LoadAll(dirs, Loader(yaml)).Success? {
      var entries := LoadAll(dirs, Loader(yaml)).value;
      SortBySorts(entries, EntryKey);
      forall i | 0 <= i < |dirs|
        ensures LoadMeta(dirs[i].0, dirs[i].1, yaml).value in Build(dirs, yaml).value
      {
        assert entries[i] in multiset(entries);
      }
    }
  }

  /** Any two entries of the index are in (tier, name) order. */
  lemma IndexOrder(dirs: seq<(Path, string)>, yaml: YamlLoader, i: int, j: int)
    requires Build(dirs, yaml).Success?
    requires 0 <= i < j < |Build(dirs, yaml).value|
    ensures var a := Build(dirs, yaml).value[i];
      var b := Build(dirs, yaml).value[j];
      StrLt(a.tier, b.tier) || (a.tier == b.tier && StrLe(a.name, b.name))
  {
    BuildIsSortedPermutation(dirs, yaml);
    var index := Build(dirs, yaml).value;
    EntryKeyOrder(index[i], index[j]);
  }

  lemma EntryKeyOrder(a: SkillEntry, b: SkillEntry)
    requires KeyLe(EntryKey(a), EntryKey(b))
    ensures StrLt(a.tier, b.tier) || (a.tier == b.tier && StrLe(a.name, b.name))
  {
    assert EntryKey(a)[1..] == [a.name] && EntryKey(b)[1..] == [b.name];
    if a.tier == b.tier {
      assert KeyLe([a.name], [b.name]);
      assert StrLt(a.name, b.name) || a.name == b.name;
      StrLeReflexive(a.name);
    }
  }

  /** A skill created by the scaffold command is indexed under the tier it was created in. */
  lemma ScaffoldTierRoundTrip(tier: NewSkill.Tier, name: string)
    ensures TierOf(NewSkill.TargetDir(tier, name)) == Some(tier.Label())
  {
    var dir := NewSkill.TargetDir(tier, name);
    assert Name(Parent(dir)) == "." + tier.Label();
    assert tier.Label() != [] && tier.Label()[0] != '.';
    assert LStrip(tier.Label(), '.') == tier.Label();
  }
}
