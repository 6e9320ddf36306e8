/**
 * Model of src/skillkit/detect.py: build systems detected from marker
 * files in a directory, in the order of the marker table.
 */
module Detect {
  import opened Text

  /** `_MARKERS`: each build system with its marker patterns, in declaration order. */
  const Markers: seq<(string, seq<string>)> := [
    ("go", ["go.mod"]),
    ("node", ["package.json", "pnpm-lock.yaml", "yarn.lock", "package-lock.json"]),
    ("rust", ["Cargo.toml"]),
    ("java-maven", ["pom.xml"]),
    ("java-gradle", ["build.gradle", "build.gradle.kts", "settings.gradle"]),
    ("dotnet", ["*.sln", "*.csproj", "*.fsproj"]),
    ("python", ["pyproject.toml", "setup.cfg", "setup.py", "requirements.txt"]),
    ("cmake", ["CMakeLists.txt"]),
    ("make", ["Makefile"])
  ]

  /** Whether a glob pattern whose only wildcard is `*` matches a file name. */
  predicate GlobMatch(pattern: string, name: string)
    decreases |pattern| + |name|
  {
    if pattern == [] then name == []
    else if pattern[0] == '*' then GlobMatch(pattern[1..], name) || (name != [] && GlobMatch(pattern, name[1..]))
    else name != [] && pattern[0] == name[0] && GlobMatch(pattern[1..], name[1..])
  }

  /** A pattern without `*` matches exactly the name it spells. */
  lemma {:induction false} LiteralPatternMatchesItself(pattern: string, name: string)
    requires forall i :: 0 <= i < |pattern| ==> pattern[i] != '*'
    ensures GlobMatch(pattern, name) <==> name == pattern
    decreases |pattern|
  {
    if pattern != [] && name != [] {
      LiteralPatternMatchesItself(pattern[1..], name[1..]);
      assert name == [name[0]] + name[1..];
      assert pattern == [pattern[0]] + pattern[1..];
    }
  }

  /** `*` followed by a literal matches exactly the names ending in that literal. */
  lemma {:induction false} StarSuffixMatches(suffix: string, name: string)
    requires forall i :: 0 <= i < |suffix| ==> suffix[i] != '*'
    ensures GlobMatch("*" + suffix, name) <==> EndsWith(name, suffix)
    decreases |name|
  {
    var pattern := "*" + suffix;
    assert pattern[1..] == suffix;
    LiteralPatternMatchesItself(suffix, name);
    if name != [] {
      StarSuffixMatches(suffix, name[1..]);
      if |name| > |suffix| {
        assert name[1..][|name[1..]| - |suffix|..] == name[|name| - |suffix|..];
      }
    }
  }

  /** `list(cwd.glob(pattern))` is non-empty: some entry of the directory matches. */
  predicate AnyMatch(pattern: string, entries: seq<string>) {
    exists i :: 0 <= i < |entries| && GlobMatch(pattern, entries[i])
  }

  /** Whether any of a system's patterns matches an entry. */
  predicate SystemPresent(patterns: seq<string>, entries: seq<string>) {
    exists k :: 0 <= k < |patterns| && AnyMatch(patterns[k], entries)
  }

  /** The systems of `markers` that are present, in table order. */
  function Detected(markers: seq<(string, seq<string>)>, entries: seq<string>): seq<string>
  {
    if markers == [] then []
    else
      var init := Detected(markers[..|markers| - 1], entries);
      var last := markers[|markers| - 1];
      if SystemPresent(last.1, entries) then init + [last.0] else init
  }

  /** `detect_build_system`, with the directory's entries passed in. */
  method DetectBuildSystem(entries: seq<string>) returns (detected: seq<string>)
    ensures detected == Detected(Markers, entries)
  {
    detected := [];
    for m := 0 to |Markers|
      invariant detected == Detected(Markers[..m], entries)
    {
      assert Markers[..m + 1][..m] == Markers[..m];
      var (system, patterns) := Markers[m];
      for k := 0 to |patterns|
        invariant detected == Detected(Markers[..m], entries)
        invariant forall j :: 0 <= j < k ==> !AnyMatch(patterns[j], entries)
      {
        if AnyMatch(patterns[k], entries) {
          detected := detected + [system];
          break;
        }
      }
    }
    assert Markers[..|Markers|] == Markers;
  }

  /** A system is detected exactly when one of its patterns matches an entry. */
  lemma {:induction false} DetectedCharacterized(markers: seq<(string, seq<string>)>, entries: seq<string>, system: string)
    ensures system in Detected(markers, entries) <==>
              exists m :: 0 <= m < |markers| && markers[m].0 == system && SystemPresent(markers[m].1, entries)
  {
    if markers != [] {
      var init := markers[..|markers| - 1];
      DetectedCharacterized(init, entries, system);
      assert forall m :: 0 <= m < |init| ==> init[m] == markers[m];
    }
  }

  /**
   * The result lists systems of the table in table order: each detected
   * system is the name at a table position, and the positions increase.
   */
  lemma {:induction false} DetectedInTableOrder(markers: seq<(string, seq<string>)>, entries: seq<string>)
    returns (positions: seq<nat>)
    ensures var d := Detected(markers, entries);
      && |positions| == |d|
      && (forall i :: 0 <= i < |d| ==> positions[i] < |markers| && d[i] == markers[positions[i]].0)
      && (forall i, j :: 0 <= i < j < |positions| ==> positions[i] < positions[j])
  {
    if markers != [] {
      var init := markers[..|markers| - 1];
      positions := DetectedInTableOrder(init, entries);
      assert forall m :: 0 <= m < |init| ==> init[m] == markers[m];
      if SystemPresent(markers[|markers| - 1].1, entries) {
        positions := positions + [|markers| - 1];
      }
    } else {
      positions := [];
    }
  }

  /** No two systems of the table share a name. */
  lemma MarkerNamesDistinct()
    ensures forall i, j :: 0 <= i < j < |Markers| ==> Markers[i].0 != Markers[j].0
  {
  }

  /** Each system appears at most once in the result. */
  lemma DetectedHasNoDuplicates(entries: seq<string>)
    ensures var d := Detected(Markers, entries);
      forall i, j :: 0 <= i < j < |d| ==> d[i] != d[j]
  {
    var positions := DetectedInTableOrder(Markers, entries);
    MarkerNamesDistinct();
  }

  /** Nothing is detected exactly when no pattern of any system matches an entry. */
  lemma NothingDetected(entries: seq<string>)
    ensures Detected(Markers, entries) == [] <==>
              forall m :: 0 <= m < |Markers| ==> !SystemPresent(Markers[m].1, entries)
  {
    var d := Detected(Markers, entries);
    if d != [] {
      DetectedCharacterized(Markers, entries, d[0]);
    }
    forall m | 0 <= m < |Markers| && SystemPresent(Markers[m].1, entries)
      ensures d != []
    {
      DetectedCharacterized(Markers, entries, Markers[m].0);
    }
  }

  /** A directory holding `go.mod` is detected as a Go project. */
  lemma GoModuleDetected(entries: seq<string>)
    requires "go.mod" in entries
    ensures "go" in Detected(Markers, entries)
  {
    var i :| 0 <= i < |entries| && entries[i] == "go.mod";
    LiteralPatternMatchesItself("go.mod", entries[i]);
    assert AnyMatch(Markers[0].1[0], entries);
    DetectedCharacterized(Markers, entries, "go");
  }

  /** A directory holding a `.csproj` file is detected as a .NET project. */
  lemma CsprojDetected(entries: seq<string>, name: string)
    requires name in entries && EndsWith(name, ".csproj")
    ensures "dotnet" in Detected(Markers, entries)
  {
    var i :| 0 <= i < |entries| && entries[i] == name;
    assert Markers[5].1[1] == "*" + ".csproj";
    StarSuffixMatches(".csproj", name);
    assert AnyMatch(Markers[5].1[1], entries);
    DetectedCharacterized(Markers, entries, "dotnet");
  }
}
