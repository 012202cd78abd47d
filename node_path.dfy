/**
 * Node's POSIX `path.basename` and `path.extname`, the two path helpers the
 * plugins call.
 */
module NodePath {
  import opened Wrappers
  import opened JsStrings

  /** `p` without its trailing `/` characters. */
  function StripTrailingSlashes(p: string): (r: string)
    ensures |r| <= |p| && r == p[..|r|]
    ensures r == [] || r[|r| - 1] != '/'
    ensures forall i :: |r| <= i < |p| ==> p[i] == '/'
    ensures r == p <==> p == [] || p[|p| - 1] != '/'
    decreases |p|
  {
    if p != [] && p[|p| - 1] == '/' then StripTrailingSlashes(p[..|p| - 1]) else p
  }

  /** `path.basename(p)`: the last path component, trailing slashes ignored. */
  function Basename(p: string): (b: string)
    ensures '/' !in b
    ensures |b| <= |p|
  {
    var segments := Split(StripTrailingSlashes(p), '/');
    JoinSplit(StripTrailingSlashes(p), '/');
    LastSegmentIsShorter(segments, '/');
    segments[|segments| - 1]
  }

  lemma {:induction false} LastSegmentIsShorter(parts: seq<string>, sep: char)
    requires |parts| >= 1
    ensures |parts[|parts| - 1]| <= |Join(parts, sep)|
    decreases |parts|
  {
    if |parts| > 1 {
      LastSegmentIsShorter(parts[1..], sep);
    }
  }

  /** The basename of `dir/name` is `name`, for a non-empty `/`-free `name`. */
  lemma BasenameOfChild(dir: string, name: string)
    requires '/' !in name && name != []
    ensures Basename(dir + "/" + name) == name
  {
    var p := dir + "/" + name;
    assert p[|p| - 1] == name[|name| - 1];
    assert name[|name| - 1] in name;
    SplitLastSegment(dir, '/', name);
  }

  /** A name without `/` is its own basename, so taking the basename twice changes nothing. */
  lemma BasenameIdempotent(p: string)
    ensures Basename(Basename(p)) == Basename(p)
  {
    var b := Basename(p);
    if b != [] {
      assert StripTrailingSlashes(b) == b;
    }
    SplitWithoutSeparator(b, '/');
  }

  /** The index of the last `c` in `s`. */
  function LastIndexOf(s: string, c: char): (r: Option<nat>)
    ensures r.Some? ==> r.value < |s| && s[r.value] == c
    ensures r.Some? ==> forall j :: r.value < j < |s| ==> s[j] != c
    ensures r.None? ==> c !in s
    decreases |s|
  {
    if s == [] then None
    else if s[|s| - 1] == c then Some(|s| - 1)
    else LastIndexOf(s[..|s| - 1], c)
  }

  /**
   * `path.extname(p)`: from the last `.` of the basename to its end; empty
   * when the basename has no `.`, when its last `.` is its first character
   * (`.json`) or when it is `..`.
   */
  function Extname(p: string): (e: string)
    ensures e == [] || (e[0] == '.' && '.' !in e[1..])
  {
    var b := Basename(p);
    match LastIndexOf(b, '.')
    case None => ""
    case Some(i) => if i == 0 || b == ".." then "" else b[i..]
  }

  /** `s` ends with `suffix`. */
  predicate EndsWith(s: string, suffix: string) {
    |suffix| <= |s| && s[|s| - |suffix|..] == suffix
  }

  /** The extension is `.json` exactly when the basename ends in `.json` and has a non-empty stem. */
  lemma ExtnameIsJson(p: string)
    ensures Extname(p) == ".json" <==> EndsWith(Basename(p), ".json") && |Basename(p)| > 5
  {
    var b := Basename(p);
    if EndsWith(b, ".json") && |b| > 5 {
      var k := |b| - 5;
      assert b[k..] == ".json";
      assert forall j :: k < j < |b| ==> b[j] == ".json"[j - k] != '.';
      var r := LastIndexOf(b, '.');
      assert b[k] == '.';
      assert r.Some? && r.value == k;
    }
    if Extname(p) == ".json" {
      var i := LastIndexOf(b, '.').value;
      assert b[i..] == ".json";
      assert |b| - i == 5;
    }
  }
}
