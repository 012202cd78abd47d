/**
 * The JavaScript string operations the plugins rely on: `split` with a
 * one-character separator, `includes`, `indexOf`, `replace` with a string
 * pattern and `length` (which counts UTF-16 code units).
 */
module JsStrings {
  import opened Wrappers

  /** `sub` occurs in `s` starting at index `i`. */
  ghost predicate OccursAt(s: string, sub: string, i: nat) {
    i + |sub| <= |s| && s[i..i + |sub|] == sub
  }

  /** `s.indexOf(pat)`: the first index where `pat` occurs, `None` for -1. */
  function IndexOf(s: string, pat: string): (r: Option<nat>)
    ensures r.Some? ==> OccursAt(s, pat, r.value)
    ensures r.Some? ==> forall j: nat :: j < r.value ==> !OccursAt(s, pat, j)
    ensures r.None? ==> forall j: nat :: !OccursAt(s, pat, j)
    decreases |s|
  {
    if |pat| > |s| then None
    else if s[..|pat|] == pat then Some(0)
    else
      var r := IndexOf(s[1..], pat);
      assert !OccursAt(s, pat, 0);
      assert forall j: nat :: 1 <= j && OccursAt(s, pat, j) ==> OccursAt(s[1..], pat, j - 1) by {
        forall j: nat | 1 <= j && OccursAt(s, pat, j) ensures OccursAt(s[1..], pat, j - 1) {
          assert s[1..][j - 1..j - 1 + |pat|] == s[j..j + |pat|];
        }
      }
      match r
      case None => None
      case Some(i) =>
        assert s[1..][i..i + |pat|] == s[i + 1..i + 1 + |pat|];
        Some(i + 1)
  }

  /** `s.includes(sub)`. */
  predicate Includes(s: string, sub: string) {
    IndexOf(s, sub).Some?
  }

  /** `s.replace(pat, rep)` with a string pattern: only the first occurrence is replaced. */
  function ReplaceFirst(s: string, pat: string, rep: string): string {
    match IndexOf(s, pat)
    case None => s
    case Some(i) => s[..i] + rep + s[i + |pat|..]
  }

  /** Replacing a prefix keeps what follows it. */
  lemma ReplaceFirstOfPrefix(pat: string, rest: string, rep: string)
    ensures ReplaceFirst(pat + rest, pat, rep) == rep + rest
  {
    assert (pat + rest)[..|pat|] == pat;
    assert (pat + rest)[|pat|..] == rest;
  }

  /** Replacing a suffix that occurs nowhere earlier swaps that suffix. */
  lemma ReplaceFirstOfSuffix(stem: string, pat: string, rep: string)
    requires forall j: nat :: j < |stem| ==> !OccursAt(stem + pat, pat, j)
    ensures ReplaceFirst(stem + pat, pat, rep) == stem + rep
  {
    var s := stem + pat;
    assert OccursAt(s, pat, |stem|) by { assert s[|stem|..|stem| + |pat|] == pat; }
    var i := IndexOf(s, pat);
    assert i == Some(|stem|);
    assert s[..|stem|] == stem;
    assert s[|stem| + |pat|..] == [];
  }

  /** A missing pattern leaves the string as it was, and a present one changes its length. */
  lemma ReplaceFirstChanges(s: string, pat: string, rep: string)
    requires |pat| != |rep|
    ensures ReplaceFirst(s, pat, rep) == s <==> !Includes(s, pat)
  {
    match IndexOf(s, pat)
    case None =>
    case Some(i) =>
      assert |ReplaceFirst(s, pat, rep)| == |s| - |pat| + |rep|;
  }

  /** `s.split(sep)` for a one-character separator: never empty, no segment holds `sep`. */
  function Split(s: string, sep: char): (r: seq<string>)
    ensures |r| >= 1
    ensures forall i :: 0 <= i < |r| ==> sep !in r[i]
    decreases |s|
  {
    if s == [] then [""]
    else
      var t := Split(s[1..], sep);
      if s[0] == sep then [""] + t else [[s[0]] + t[0]] + t[1..]
  }

  /** `parts.join(sep)`, the inverse of `Split`. */
  function Join(parts: seq<string>, sep: char): string
    decreases |parts|
  {
    if parts == [] then ""
    else if |parts| == 1 then parts[0]
    else parts[0] + [sep] + Join(parts[1..], sep)
  }

  /** Joining the segments of a split gives back the string. */
  lemma {:induction false} JoinSplit(s: string, sep: char)
    ensures Join(Split(s, sep), sep) == s
    decreases |s|
  {
    if s != [] {
      var t := Split(s[1..], sep);
      JoinSplit(s[1..], sep);
      if s[0] == sep {
        assert ([""] + t)[1..] == t;
        assert Join([""] + t, sep) == "" + [sep] + Join(t, sep);
      } else if |t| == 1 {
        assert Join(t, sep) == t[0];
      } else {
        var u := [[s[0]] + t[0]] + t[1..];
        assert u[1..] == t[1..];
        assert Join(t, sep) == t[0] + [sep] + Join(t[1..], sep);
        assert Join(u, sep) == [s[0]] + t[0] + [sep] + Join(t[1..], sep);
        assert s == [s[0]] + s[1..];
      }
    }
  }

  /** Splitting around one separator splits each side on its own. */
  lemma {:induction false} SplitAround(a: string, sep: char, b: string)
    ensures Split(a + [sep] + b, sep) == Split(a, sep) + Split(b, sep)
    decreases |a|
  {
    var s := a + [sep] + b;
    if a == [] {
      assert s == [sep] + b;
      SplitCons(sep, b, sep);
    } else {
      var rest := a[1..];
      assert s == [a[0]] + (rest + [sep] + b);
      assert a == [a[0]] + rest;
      SplitAround(rest, sep, b);
      SplitCons(a[0], rest + [sep] + b, sep);
      SplitCons(a[0], rest, sep);
      var ta, tb := Split(rest, sep), Split(b, sep);
      if a[0] == sep {
        assert [""] + (ta + tb) == ([""] + ta) + tb;
      } else {
        HeadMergeAppend([a[0]], ta, tb);
      }
    }
  }

  /** `Split` on a string given by its first character. */
  lemma SplitCons(c: char, rest: string, sep: char)
    ensures Split([c] + rest, sep) ==
      if c == sep then [""] + Split(rest, sep)
      else [[c] + Split(rest, sep)[0]] + Split(rest, sep)[1..]
  {
    assert ([c] + rest)[1..] == rest;
  }

  /** Prefixing the first segment of a concatenation prefixes the first segment of its left part. */
  lemma HeadMergeAppend(prefix: string, ta: seq<string>, tb: seq<string>)
    requires |ta| >= 1
    ensures [prefix + (ta + tb)[0]] + (ta + tb)[1..] == ([prefix + ta[0]] + ta[1..]) + tb
  {
    assert (ta + tb)[0] == ta[0];
    assert (ta + tb)[1..] == ta[1..] + tb;
  }

  /** A string without the separator is a single segment. */
  lemma {:induction false} SplitWithoutSeparator(s: string, sep: char)
    requires sep !in s
    ensures Split(s, sep) == [s]
    decreases |s|
  {
    if s != [] {
      SplitWithoutSeparator(s[1..], sep);
      assert s == [s[0]] + s[1..];
    }
  }

  /** A separator-free text after the last separator is the last segment. */
  lemma SplitLastSegment(dir: string, sep: char, name: string)
    requires sep !in name
    ensures var segments := Split(dir + [sep] + name, sep); segments[|segments| - 1] == name
  {
    SplitAround(dir, sep, name);
    SplitWithoutSeparator(name, sep);
  }

  /** Splitting a join of separator-free segments gives back the segments. */
  lemma {:induction false} SplitJoin(parts: seq<string>, sep: char)
    requires |parts| >= 1
    requires forall i :: 0 <= i < |parts| ==> sep !in parts[i]
    ensures Split(Join(parts, sep), sep) == parts
    decreases |parts|
  {
    if |parts| == 1 {
      SplitWithoutSeparator(parts[0], sep);
    } else {
      SplitJoin(parts[1..], sep);
      SplitAround(parts[0], sep, Join(parts[1..], sep));
      SplitWithoutSeparator(parts[0], sep);
      assert parts == [parts[0]] + parts[1..];
    }
  }

  /** The number of UTF-16 code units of one character. */
  function CodeUnits(c: char): nat {
    if c as int > 0xFFFF then 2 else 1
  }

  /** `s.length` in JavaScript: characters outside the Basic Multilingual Plane count twice. */
  function Utf16Length(s: string): (n: nat)
    ensures |s| <= n <= 2 * |s|
    ensures s == [] <==> n == 0
  {
    if s == [] then 0 else CodeUnits(s[0]) + Utf16Length(s[1..])
  }

  /** The length agrees with the character count exactly when every character is in the BMP. */
  lemma {:induction false} Utf16LengthIsCount(s: string)
    ensures Utf16Length(s) == |s| <==> forall i :: 0 <= i < |s| ==> s[i] as int <= 0xFFFF
  {
    if s != [] {
      Utf16LengthIsCount(s[1..]);
      assert forall i :: 1 <= i < |s| ==> s[i] == s[1..][i - 1];
    }
  }
}
