/**
 * Model of src/clean_interfaces/main.py: removing the `--dotenv`/`-e`
 * options from the command line before the application sees it, and
 * restoring the original command line afterwards.
 */
module CleanMain {
  import opened Text

  /** An option that takes the next element as its value. */
  predicate IsDotenvOption(arg: string) {
    arg == "--dotenv" || arg == "-e"
  }

  /** An element that carries its value inline. */
  predicate IsDotenvAssignment(arg: string) {
    StartsWith(arg, "--dotenv=")
  }

  predicate IsDotenvArg(arg: string) {
    IsDotenvOption(arg) || IsDotenvAssignment(arg)
  }

  /** The elements kept from position `i` on. */
  function Kept(argv: seq<string>, i: nat): seq<string>
    decreases |argv| - i
  {
    if i >= |argv| then []
    else if IsDotenvOption(argv[i]) then Kept(argv, i + 2)
    else if IsDotenvAssignment(argv[i]) then Kept(argv, i + 1)
    else [argv[i]] + Kept(argv, i + 1)
  }

  /** The command line the application sees: the program name, then the kept elements. */
  function Stripped(argv: seq<string>): seq<string>
    requires |argv| >= 1
  {
    [argv[0]] + Kept(argv, 1)
  }

  /** The loop of `main` that builds `new_argv`. */
  method FilterArgv(argv: seq<string>) returns (newArgv: seq<string>)
    requires |argv| >= 1
    ensures newArgv == Stripped(argv)
  {
    newArgv := [argv[0]];
    var i := 1;
    while i < |argv|
      invariant 1 <= i <= |argv| + 1
      invariant newArgv + Kept(argv, i) == Stripped(argv)
      decreases |argv| - i
    {
      if argv[i] == "--dotenv" || argv[i] == "-e" {
        i := i + 2;
      } else if StartsWith(argv[i], "--dotenv=") {
        i := i + 1;
      } else {
        newArgv := newArgv + [argv[i]];
        i := i + 1;
      }
    }
  }

  /** The kept elements come from `argv[i..]`, in their original order. */
  lemma {:induction false} KeptIsOrderedSelection(argv: seq<string>, i: nat) returns (positions: seq<nat>)
    ensures var kept := Kept(argv, i);
      && |positions| == |kept|
      && (forall k :: 0 <= k < |kept| ==> i <= positions[k] < |argv| && kept[k] == argv[positions[k]])
      && (forall k, l :: 0 <= k < l < |positions| ==> positions[k] < positions[l])
    decreases |argv| - i
  {
    if i >= |argv| {
      positions := [];
    } else if IsDotenvOption(argv[i]) {
      positions := KeptIsOrderedSelection(argv, i + 2);
    } else if IsDotenvAssignment(argv[i]) {
      positions := KeptIsOrderedSelection(argv, i + 1);
    } else {
      var rest := KeptIsOrderedSelection(argv, i + 1);
      positions := [i] + rest;
      ConsPositions(argv, i, rest, Kept(argv, i + 1));
      assert Kept(argv, i) == [argv[i]] + Kept(argv, i + 1);
    }
  }

  /** Putting position `i` before positions that all come after it keeps the selection ordered. */
  lemma ConsPositions(argv: seq<string>, i: nat, rest: seq<nat>, tail: seq<string>)
    requires i < |argv| && |rest| == |tail|
    requires forall k :: 0 <= k < |tail| ==> i + 1 <= rest[k] < |argv| && tail[k] == argv[rest[k]]
    requires forall k, l :: 0 <= k < l < |rest| ==> rest[k] < rest[l]
    ensures var kept, positions := [argv[i]] + tail, [i] + rest;
      && |positions| == |kept|
      && (forall k :: 0 <= k < |kept| ==> i <= positions[k] < |argv| && kept[k] == argv[positions[k]])
      && (forall k, l :: 0 <= k < l < |positions| ==> positions[k] < positions[l])
  {
    var kept, positions := [argv[i]] + tail, [i] + rest;
    forall k | 1 <= k < |kept|
      ensures i <= positions[k] < |argv| && kept[k] == argv[positions[k]]
    {
      assert positions[k] == rest[k - 1] && kept[k] == tail[k - 1];
    }
    forall k, l | 0 <= k < l < |positions|
      ensures positions[k] < positions[l]
    {
      if k > 0 {
        assert positions[k] == rest[k - 1] && positions[l] == rest[l - 1];
      } else {
        assert positions[l] == rest[l - 1];
      }
    }
  }

  /** No kept element is a dotenv option or assignment. */
  lemma {:induction false} KeptHasNoDotenv(argv: seq<string>, i: nat)
    ensures forall k :: 0 <= k < |Kept(argv, i)| ==> !IsDotenvArg(Kept(argv, i)[k])
    decreases |argv| - i
  {
    if i < |argv| {
      if IsDotenvOption(argv[i]) {
        KeptHasNoDotenv(argv, i + 2);
      } else {
        KeptHasNoDotenv(argv, i + 1);
      }
    }
  }

  /** The application never sees more elements than were given. */
  lemma {:induction false} KeptIsShorter(argv: seq<string>, i: nat)
    requires i <= |argv|
    ensures |Kept(argv, i)| <= |argv| - i
    decreases |argv| - i
  {
    if i < |argv| {
      if IsDotenvOption(argv[i]) && i + 2 > |argv| {
      } else if IsDotenvOption(argv[i]) {
        KeptIsShorter(argv, i + 2);
      } else {
        KeptIsShorter(argv, i + 1);
      }
    }
  }

  /** Elements that are no dotenv argument are all kept, in order. */
  lemma {:induction false} UnflaggedKept(argv: seq<string>, i: nat)
    requires i <= |argv|
    requires forall k :: i <= k < |argv| ==> !IsDotenvArg(argv[k])
    ensures Kept(argv, i) == argv[i..]
    decreases |argv| - i
  {
    if i < |argv| {
      UnflaggedKept(argv, i + 1);
      assert argv[i..] == [argv[i]] + argv[i + 1..];
    }
  }

  /** A run of elements that are no dotenv argument is kept as it is. */
  lemma {:induction false} KeptSkipsUnflagged(argv: seq<string>, i: nat, n: nat)
    requires i + n <= |argv|
    requires forall k :: i <= k < i + n ==> !IsDotenvArg(argv[k])
    ensures Kept(argv, i) == argv[i..i + n] + Kept(argv, i + n)
    decreases n
  {
    if n > 0 {
      KeptSkipsUnflagged(argv, i + 1, n - 1);
      var head, mid, rest := [argv[i]], argv[i + 1..i + n], Kept(argv, i + n);
      assert !IsDotenvArg(argv[i]);
      assert Kept(argv, i) == head + Kept(argv, i + 1);
      assert argv[i..i + n] == head + mid;
      assert head + (mid + rest) == (head + mid) + rest;
    }
  }

  /** When the elements at `j` up to `j + w` are what the filter drops, the rest is kept in order. */
  lemma RemovedSpan(argv: seq<string>, j: nat, w: nat)
    requires 1 <= j && j + w <= |argv|
    requires forall k :: 1 <= k < j ==> !IsDotenvArg(argv[k])
    requires forall k :: j + w <= k < |argv| ==> !IsDotenvArg(argv[k])
    requires Kept(argv, j) == Kept(argv, j + w)
    ensures Stripped(argv) == argv[..j] + argv[j + w..]
  {
    KeptSkipsUnflagged(argv, 1, j - 1);
    UnflaggedKept(argv, j + w);
    assert argv[..j] == [argv[0]] + argv[1..j];
  }

  /**
   * `--dotenv VALUE` or `-e VALUE` is removed together with its value,
   * whatever the value is, and the elements around it are kept in order.
   */
  lemma DotenvOptionRemoved(prog: string, before: seq<string>, option: string, value: string, after: seq<string>)
    requires IsDotenvOption(option)
    requires forall k :: 0 <= k < |before| ==> !IsDotenvArg(before[k])
    requires forall k :: 0 <= k < |after| ==> !IsDotenvArg(after[k])
    ensures Stripped([prog] + before + [option, value] + after) == [prog] + before + after
  {
    var argv := [prog] + before + [option, value] + after;
    var j := 1 + |before|;
    assert argv[..j] == [prog] + before;
    assert argv[j + 2..] == after;
    forall k | 1 <= k < j
      ensures !IsDotenvArg(argv[k])
    {
      assert argv[k] == before[k - 1];
    }
    forall k | j + 2 <= k < |argv|
      ensures !IsDotenvArg(argv[k])
    {
      assert argv[k] == after[k - j - 2];
    }
    assert Kept(argv, j) == Kept(argv, j + 2) by {
      assert argv[j] == option;
    }
    RemovedSpan(argv, j, 2);
  }

  /** `--dotenv=PATH` is removed on its own, and the elements around it are kept in order. */
  lemma DotenvAssignmentRemoved(prog: string, before: seq<string>, assignment: string, after: seq<string>)
    requires IsDotenvAssignment(assignment)
    requires forall k :: 0 <= k < |before| ==> !IsDotenvArg(before[k])
    requires forall k :: 0 <= k < |after| ==> !IsDotenvArg(after[k])
    ensures Stripped([prog] + before + [assignment] + after) == [prog] + before + after
  {
    var argv := [prog] + before + [assignment] + after;
    var j := 1 + |before|;
    assert argv[..j] == [prog] + before;
    assert argv[j + 1..] == after;
    forall k | 1 <= k < j
      ensures !IsDotenvArg(argv[k])
    {
      assert argv[k] == before[k - 1];
    }
    forall k | j + 1 <= k < |argv|
      ensures !IsDotenvArg(argv[k])
    {
      assert argv[k] == after[k - j - 1];
    }
    assert Kept(argv, j) == Kept(argv, j + 1) by {
      assert argv[j] == assignment;
      assert |assignment| >= 9 && assignment[..9] == "--dotenv=";
      assert assignment[8] == '=';
    }
    RemovedSpan(argv, j, 1);
  }

  /** Stripping is idempotent: the application's command line has nothing left to strip. */
  lemma StrippedIdempotent(argv: seq<string>)
    requires |argv| >= 1
    ensures Stripped(Stripped(argv)) == Stripped(argv)
  {
    var s := Stripped(argv);
    KeptHasNoDotenv(argv, 1);
    forall k | 1 <= k < |s|
      ensures !IsDotenvArg(s[k])
    {
      assert s[k] == Kept(argv, 1)[k - 1];
    }
    UnflaggedKept(s, 1);
  }

  /** The program name always survives in front. */
  lemma ProgramNameFirst(argv: seq<string>)
    requires |argv| >= 1
    ensures |Stripped(argv)| >= 1 && Stripped(argv)[0] == argv[0]
  {
  }

  /** The interpreter state `main` changes: `sys.argv`. */
  class Interpreter {
    var argv: seq<string>

    constructor (argv: seq<string>)
      ensures this.argv == argv
    {
      this.argv := argv;
    }

    /**
     * `main`: `appArgv` is the command line `run_app` runs with;
     * `appRaises` says whether it raises. Either way `sys.argv` is
     * restored; without an exception the process exits with 0.
     */
    method Run(appRaises: bool) returns (appArgv: seq<string>, exitCode: int, raised: bool)
      requires |argv| >= 1
      modifies this
      ensures appArgv == Stripped(old(argv))
      ensures argv == old(argv)
      ensures raised == appRaises
      ensures !raised ==> exitCode == 0
    {
      var original := argv;
      var newArgv := FilterArgv(argv);
      argv := newArgv;
      appArgv := argv;
      raised := appRaises;
      argv := original;
      exitCode := 0;
    }
  }
}
