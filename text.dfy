/**
 * The Python string operations the skill tools rely on, over `string`
 * (a sequence of code points): `startswith`, `endswith`, `find`,
 * `split(sep, maxsplit)`, `join`, `replace` of one character, `lstrip`
 * of one character, and ASCII `upper`/`lower`.
 */
module Text {
  import opened Wrappers

  predicate StartsWith(s: string, prefix: string) {
    |prefix| <= |s| && s[..|prefix|] == prefix
  }

  predicate EndsWith(s: string, suffix: string) {
    |suffix| <= |s| && s[|s| - |suffix|..] == suffix
  }

  /** `sep` occurs in `s` starting at index `i`. */
  predicate OccursAt(s: string, sep: string, i: int) {
    0 <= i && i + |sep| <= |s| && s[i..i + |sep|] == sep
  }

  predicate Contains(s: string, sep: string) {
    exists i :: 0 <= i <= |s| - |sep| && OccursAt(s, sep, i)
  }

  /** Python's `s.find(sep, from)`: the first occurrence at or after `from`. */
  function FindFrom(s: string, sep: string, from: nat): (r: Option<nat>)
    requires |sep| > 0
    ensures r.Some? ==> from <= r.value && OccursAt(s, sep, r.value)
    ensures forall j :: from <= j && (r.None? || j < r.value) ==> !OccursAt(s, sep, j)
    decreases |s| - from
  {
    if from + |sep| > |s| then None
    else if s[from..from + |sep|] == sep then Some(from)
    else FindFrom(s, sep, from + 1)
  }

  function Find(s: string, sep: string): Option<nat>
    requires |sep| > 0
  {
    FindFrom(s, sep, 0)
  }

  /** The first occurrence is the smallest index at which `sep` occurs. */
  lemma FindIsFirst(s: string, sep: string, k: nat)
    requires |sep| > 0
    requires OccursAt(s, sep, k)
    requires forall j :: 0 <= j < k ==> !OccursAt(s, sep, j)
    ensures Find(s, sep) == Some(k)
  {
  }

  /**
   * Python's `s.split(sep, maxsplit)` for a non-empty separator: at most
   * `maxsplit` splits from the left (no limit when `maxsplit` is negative).
   */
  function Split(s: string, sep: string, maxsplit: int): (parts: seq<string>)
    requires |sep| > 0
    ensures |parts| >= 1
    ensures maxsplit >= 0 ==> |parts| <= maxsplit + 1
    decreases |s|
  {
    if maxsplit == 0 then [s]
    else match Find(s, sep)
      case None => [s]
      case Some(k) =>
        [s[..k]] + Split(s[k + |sep|..], sep, if maxsplit < 0 then maxsplit else maxsplit - 1)
  }

  /** Python's `sep.join(parts)`. */
  function Join(parts: seq<string>, sep: string): string
  {
    if |parts| == 0 then ""
    else if |parts| == 1 then parts[0]
    else parts[0] + sep + Join(parts[1..], sep)
  }

  lemma JoinCons(p: string, rest: seq<string>, sep: string)
    requires |rest| >= 1
    ensures Join([p] + rest, sep) == p + sep + Join(rest, sep)
  {
    assert ([p] + rest)[1..] == rest;
  }

  /** Joining two non-empty lists of parts puts one separator between their joins. */
  lemma {:induction false} JoinAppend(a: seq<string>, b: seq<string>, sep: string)
    requires |a| >= 1 && |b| >= 1
    ensures Join(a + b, sep) == Join(a, sep) + sep + Join(b, sep)
  {
    if |a| == 1 {
      JoinCons(a[0], b, sep);
      assert a + b == [a[0]] + b;
    } else {
      JoinAppend(a[1..], b, sep);
      assert a + b == [a[0]] + (a[1..] + b);
      JoinCons(a[0], a[1..] + b, sep);
      JoinCons(a[0], a[1..], sep);
      assert a == [a[0]] + a[1..];
    }
  }

  /** Two parts in the middle of a join sit between separators. */
  lemma JoinMiddle(pre: seq<string>, x: string, y: string, post: seq<string>, sep: string)
    requires |pre| >= 1 && |post| >= 1
    ensures Join(pre + [x, y] + post, sep) == Join(pre, sep) + sep + x + sep + y + sep + Join(post, sep)
  {
    var px := pre + [x];
    var pxy := px + [y];
    assert pre + [x, y] + post == pxy + post;
    JoinAppend(pre, [x], sep);
    JoinAppend(px, [y], sep);
    JoinAppend(pxy, post, sep);
  }

  /** Splitting and re-joining with the same separator gives back the text. */
  lemma {:induction false} SplitJoin(s: string, sep: string, maxsplit: int)
    requires |sep| > 0
    ensures Join(Split(s, sep, maxsplit), sep) == s
    decreases |s|
  {
    if maxsplit != 0 {
      match Find(s, sep)
      case None =>
      case Some(k) =>
        assert OccursAt(s, sep, k);
        var head, rest := s[..k], s[k + |sep|..];
        var m := if maxsplit < 0 then maxsplit else maxsplit - 1;
        var tail := Split(rest, sep, m);
        assert Split(s, sep, maxsplit) == [head] + tail;
        SplitJoin(rest, sep, m);
        JoinCons(head, tail, sep);
        assert s == head + s[k..k + |sep|] + rest;
    }
  }

  /** No part contains the first character of `sep`. */
  predicate FreeOf(parts: seq<string>, c: char) {
    forall i, j :: 0 <= i < |parts| && 0 <= j < |parts[i]| ==> parts[i][j] != c
  }

  /**
   * Joining parts that do not contain the separator's first character and
   * splitting again without limit gives back the parts.
   */
  lemma {:induction false} JoinSplit(parts: seq<string>, sep: string)
    requires |sep| > 0 && |parts| >= 1
    requires FreeOf(parts, sep[0])
    ensures Split(Join(parts, sep), sep, -1) == parts
    decreases |parts|
  {
    var p := parts[0];
    if |parts| == 1 {
      forall j | 0 <= j <= |p| - |sep|
        ensures !OccursAt(p, sep, j)
      {
        assert p[j..j + |sep|][0] == p[j] != sep[0];
      }
    } else {
      var rest := parts[1..];
      var s := Join(parts, sep);
      assert s == p + sep + Join(rest, sep);
      assert OccursAt(s, sep, |p|) by {
        assert s[|p|..|p| + |sep|] == sep;
      }
      forall j | 0 <= j < |p|
        ensures !OccursAt(s, sep, j)
      {
        if j + |sep| <= |s| {
          assert s[j..j + |sep|][0] == s[j] == p[j] != sep[0];
        }
      }
      FindIsFirst(s, sep, |p|);
      assert s[..|p|] == p;
      assert s[|p| + |sep|..] == Join(rest, sep);
      assert FreeOf(rest, sep[0]) by {
        forall i, j | 0 <= i < |rest| && 0 <= j < |rest[i]|
          ensures rest[i][j] != sep[0]
        {
          assert rest[i] == parts[i + 1];
        }
      }
      JoinSplit(rest, sep);
    }
  }

  /** Python's `s.replace(from, to)` for single characters. */
  function ReplaceChar(s: string, from: char, to: char): string
  {
    seq(|s|, i requires 0 <= i < |s| => if s[i] == from then to else s[i])
  }

  /** Python's `s.lstrip(c)` for a single character. */
  function LStrip(s: string, c: char): (r: string)
    ensures |r| <= |s| && r == s[|s| - |r|..]
    ensures r == [] || r[0] != c
    ensures forall i :: 0 <= i < |s| - |r| ==> s[i] == c
  {
    if s != [] && s[0] == c then LStrip(s[1..], c) else s
  }

  function UpperChar(c: char): char {
    if 'a' <= c <= 'z' then (c as int - 32) as char else c
  }

  function LowerChar(c: char): char {
    if 'A' <= c <= 'Z' then (c as int + 32) as char else c
  }

  /** `str.upper()` restricted to the ASCII letters. */
  function Upper(s: string): string {
    seq(|s|, i requires 0 <= i < |s| => UpperChar(s[i]))
  }

  /** `str.lower()` restricted to the ASCII letters. */
  function Lower(s: string): string {
    seq(|s|, i requires 0 <= i < |s| => LowerChar(s[i]))
  }
}
