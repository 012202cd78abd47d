/**
 * The block type of a template file: the segment at index 3 of its
 * `/`-separated path, with `_dataStructures` renamed to `blocks`. With the
 * default glob patterns every file path starts `./_dev/_templates/`, so that
 * segment is the first directory under the templates root.
 */
module PathClassifier {
  import opened Wrappers
  import opened JsStrings

  /** The directory name renamed on the way to a block type, and its new name. */
  const DataStructuresSegment := "_dataStructures"
  const BlocksType := "blocks"
  /** The block type of page files. */
  const PagesType := "pages"

  function NormaliseSegment(segment: string): string {
    if segment == DataStructuresSegment then BlocksType else segment
  }

  /**
   * `getBlockType(filePath)`: `None` stands for the `undefined` JavaScript
   * reads when the path has fewer than four segments.
   */
  function GetBlockType(filePath: string): (t: Option<string>)
    ensures t.None? <==> |Split(filePath, '/')| < 4
    ensures t.Some? ==> '/' !in t.value && t.value != DataStructuresSegment
  {
    var segments := Split(filePath, '/');
    if |segments| < 4 then None else Some(NormaliseSegment(segments[3]))
  }

  /** `isPageBlock(filePath)`: the block type is exactly `pages`. */
  predicate IsPageBlock(filePath: string) {
    GetBlockType(filePath) == Some(PagesType)
  }

  /** How a block type prints inside a template literal: `undefined` prints as the word. */
  function BlockTypeText(t: Option<string>): string {
    match t
    case Some(s) => s
    case None => "undefined"
  }

  /**
   * For a path made of `/`-free components, the block type is the fourth
   * component, renamed when it is `_dataStructures`; the file is a page block
   * exactly when that component is `pages`.
   */
  lemma BlockTypeOfComponents(parts: seq<string>)
    requires |parts| >= 1
    requires forall i :: 0 <= i < |parts| ==> '/' !in parts[i]
    ensures GetBlockType(Join(parts, '/')) == if |parts| < 4 then None else Some(NormaliseSegment(parts[3]))
    ensures IsPageBlock(Join(parts, '/')) <==> |parts| >= 4 && parts[3] == PagesType
  {
    SplitJoin(parts, '/');
  }

  /**
   * Whatever follows it, a path whose first four components are `a`, `b`, `c`
   * and `d` has the block type `d`, renamed when it is `_dataStructures`.
   */
  lemma BlockTypeOfFourthComponent(a: string, b: string, c: string, d: string, rest: string)
    requires '/' !in a && '/' !in b && '/' !in c && '/' !in d
    ensures GetBlockType(a + "/" + b + "/" + c + "/" + d + "/" + rest) == Some(NormaliseSegment(d))
  {
    var r3 := d + ['/'] + rest;
    var r2 := c + ['/'] + r3;
    var r1 := b + ['/'] + r2;
    var p := a + "/" + b + "/" + c + "/" + d + "/" + rest;
    assert p == a + ['/'] + r1;
    SplitFirstComponent(d, rest);
    SplitFirstComponent(c, r3);
    SplitFirstComponent(b, r2);
    SplitFirstComponent(a, r1);
    var segments := Split(p, '/');
    assert segments == [a] + ([b] + ([c] + ([d] + Split(rest, '/'))));
    assert |segments| >= 4 && segments[3] == d;
  }

  /** A `/`-free first component is the first segment; the rest splits on its own. */
  lemma SplitFirstComponent(a: string, rest: string)
    requires '/' !in a
    ensures Split(a + ['/'] + rest, '/') == [a] + Split(rest, '/')
  {
    SplitAround(a, '/', rest);
    SplitWithoutSeparator(a, '/');
  }

  /** Everything under `<root>/<dir>/<templates>/_dataStructures/` is a `blocks` file, never a page. */
  lemma DataStructuresAreBlocks(a: string, b: string, c: string, rest: string)
    requires '/' !in a && '/' !in b && '/' !in c
    ensures GetBlockType(a + "/" + b + "/" + c + "/" + DataStructuresSegment + "/" + rest) == Some(BlocksType)
    ensures !IsPageBlock(a + "/" + b + "/" + c + "/" + DataStructuresSegment + "/" + rest)
  {
    BlockTypeOfFourthComponent(a, b, c, DataStructuresSegment, rest);
  }

  /** Everything under `<root>/<dir>/<templates>/pages/` is a page block. */
  lemma PagesArePageBlocks(a: string, b: string, c: string, rest: string)
    requires '/' !in a && '/' !in b && '/' !in c
    ensures IsPageBlock(a + "/" + b + "/" + c + "/" + PagesType + "/" + rest)
  {
    BlockTypeOfFourthComponent(a, b, c, PagesType, rest);
  }
}
