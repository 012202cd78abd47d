/**
 * YuzuDist: on every emit it copies the template sources into the
 * compilation's assets. Four passes run in order (data, schema, hbs, markup),
 * each writing one or two assets per source file at a path built by plain
 * string concatenation.
 */
module Dist {
  import opened Wrappers
  import opened JsStrings
  import opened NodePath
  import opened Json
  import opened Webpack
  import opened YuzuCore
  import opened PathClassifier
  import opened SchemaAugmenter
  import opened JsArrays

  datatype Sources = Sources(
    root: string,
    data: string,
    schema: string,
    hbs: string,
    markup: string,
    layoutsDirectory: string,
    renderedPartialDirectories: seq<string>)

  datatype DistOptions = DistOptions(
    outputFolderRoot: string,
    sources: Sources,
    autoSchemaProperties: seq<AutoSchemaProperty>)

  /** The keys a caller may pass to the constructor; `None` for a key left out. */
  datatype DistUserOptions = DistUserOptions(
    outputFolderRoot: Option<string>,
    sources: Option<Sources>,
    autoSchemaProperties: Option<seq<AutoSchemaProperty>>)

  const StringSchema: Json := JObject([("type", JString("string"))])

  const DefaultDistOptions := DistOptions(
    "./_templates/",
    Sources(
      "./_dev/_templates",
      "./_dev/_templates/**/*.json",
      "./_dev/_templates/**/*.schema",
      "./_dev/_templates/**/*.hbs",
      "./_dev/_templates/**/*.html",
      "./_dev/_templates/_layouts/",
      ["./_dev/_templates/blocks/", "./_dev/_templates/_dataStructures/"]),
    [AutoSchemaProperty("_ref", StringSchema),
     AutoSchemaProperty("_modifiers", StringSchema),
     AutoSchemaProperty("yuzu-path", StringSchema)])

  /**
   * `Object.assign(defaultOptions, options || {})`: a shallow merge, so a
   * supplied `sources` replaces the whole default `sources` object.
   */
  function MergeDistOptions(user: DistUserOptions): (o: DistOptions)
    ensures user.outputFolderRoot.Some? ==> o.outputFolderRoot == user.outputFolderRoot.value
    ensures user.outputFolderRoot.None? ==> o.outputFolderRoot == "./_templates/"
    ensures user.sources.Some? ==> o.sources == user.sources.value
    ensures user.sources.None? ==> o.sources == DefaultDistOptions.sources
    ensures user.autoSchemaProperties.Some? ==> o.autoSchemaProperties == user.autoSchemaProperties.value
    ensures user.autoSchemaProperties.None? ==> o.autoSchemaProperties == DefaultDistOptions.autoSchemaProperties
  {
    DistOptions(
      user.outputFolderRoot.GetOr(DefaultDistOptions.outputFolderRoot),
      user.sources.GetOr(DefaultDistOptions.sources),
      user.autoSchemaProperties.GetOr(DefaultDistOptions.autoSchemaProperties))
  }

  // Output paths. `root` is `options.outputFolderRoot`; nothing is normalised,
  // so the default root `./_templates/` gives paths containing `//`.

  /** `${root}/data/${path.basename(file.name)}`. */
  function DataPath(root: string, filePath: string): string {
    root + "/data/" + Basename(Basename(filePath))
  }

  /** `${root}/schema/${file.type}/`, the directory of a schema and its meta file. */
  function SchemaDirectory(root: string, filePath: string): string {
    root + "/schema/" + BlockTypeText(GetBlockType(filePath)) + "/"
  }

  function SchemaPath(root: string, filePath: string): string {
    SchemaDirectory(root, filePath) + Basename(filePath)
  }

  /** `file.name.replace('.schema', '.meta')`. */
  function MetaName(name: string): string {
    ReplaceFirst(name, ".schema", ".meta")
  }

  function MetaPath(root: string, filePath: string): string {
    SchemaDirectory(root, filePath) + MetaName(Basename(filePath))
  }

  /** `${root}/src/${file.type}/${file.name}`. */
  function SrcPath(root: string, filePath: string): string {
    root + "/src/" + BlockTypeText(GetBlockType(filePath)) + "/" + Basename(filePath)
  }

  /** `${root}/markup$/${file.type}/${file.name}`. */
  function MarkupPath(root: string, filePath: string): string {
    root + "/markup$/" + BlockTypeText(GetBlockType(filePath)) + "/" + Basename(filePath)
  }

  /** `filePath.replace(sources.root, '')`, the path handed to `resolvePaths`. */
  function RelativePath(sourcesRoot: string, filePath: string): string {
    ReplaceFirst(filePath, sourcesRoot, "")
  }

  /** What `getFile` returns; `blockType` is the source's `type`. */
  datatype SourceFile = SourceFile(contents: string, name: string, blockType: Option<string>)

  /** `path` starts with `root + dir`: it lies in the directory `dir` right under `root`. */
  predicate InDirectory(path: string, root: string, dir: string) {
    |root| + |dir| <= |path| && path[..|root| + |dir|] == root + dir
  }

  /** Appending to a path keeps it in its directory. */
  lemma InDirectoryExtend(path: string, root: string, dir: string, more: string)
    requires InDirectory(path, root, dir)
    ensures InDirectory(path + more, root, dir)
  {
    assert (path + more)[..|root| + |dir|] == path[..|root| + |dir|];
  }

  /** `path` starts `root/`, followed by the characters `c1` and `c2`. */
  predicate StartsUnder(path: string, root: string, c1: char, c2: char) {
    && |root| + 2 < |path|
    && path[..|root| + 1] == root + "/"
    && path[|root| + 1] == c1 && path[|root| + 2] == c2
  }

  /** A path in a directory `/xy...` under `root` starts `root/xy`. */
  lemma InDirectoryStartsUnder(path: string, root: string, dir: string)
    requires InDirectory(path, root, dir) && |dir| >= 3 && dir[0] == '/'
    ensures StartsUnder(path, root, dir[1], dir[2])
  {
    assert path[..|root| + 1] == (root + dir)[..|root| + 1] == root + [dir[0]];
    assert path[|root| + 1] == (root + dir)[|root| + 1];
    assert path[|root| + 2] == (root + dir)[|root| + 2];
  }

  /** The directory right under the root that each kind of output path lies in. */
  lemma OutputPathStarts(root: string, p: string)
    ensures InDirectory(DataPath(root, p), root, "/data/")
    ensures InDirectory(SchemaPath(root, p), root, "/schema/")
    ensures InDirectory(MetaPath(root, p), root, "/schema/")
    ensures InDirectory(SrcPath(root, p), root, "/src/")
    ensures InDirectory(MarkupPath(root, p), root, "/markup$/")
  {
    var t := BlockTypeText(GetBlockType(p));
    var name := Basename(p);
    InDirectoryExtend(root + "/data/", root, "/data/", Basename(name));
    InDirectoryExtend(root + "/schema/", root, "/schema/", t);
    InDirectoryExtend(root + "/schema/" + t, root, "/schema/", "/");
    InDirectoryExtend(SchemaDirectory(root, p), root, "/schema/", name);
    InDirectoryExtend(SchemaDirectory(root, p), root, "/schema/", MetaName(name));
    InDirectoryExtend(root + "/src/", root, "/src/", t);
    InDirectoryExtend(root + "/src/" + t, root, "/src/", "/");
    InDirectoryExtend(root + "/src/" + t + "/", root, "/src/", name);
    InDirectoryExtend(root + "/markup$/", root, "/markup$/", t);
    InDirectoryExtend(root + "/markup$/" + t, root, "/markup$/", "/");
    InDirectoryExtend(root + "/markup$/" + t + "/", root, "/markup$/", name);
  }

  /** The two characters after `root/` that tell the kinds of output path apart. */
  lemma OutputPathLetters(root: string, p: string)
    ensures StartsUnder(DataPath(root, p), root, 'd', 'a')
    ensures StartsUnder(SchemaPath(root, p), root, 's', 'c')
    ensures StartsUnder(MetaPath(root, p), root, 's', 'c')
    ensures StartsUnder(SrcPath(root, p), root, 's', 'r')
    ensures StartsUnder(MarkupPath(root, p), root, 'm', 'a')
  {
    OutputPathStarts(root, p);
    InDirectoryStartsUnder(DataPath(root, p), root, "/data/");
    InDirectoryStartsUnder(SchemaPath(root, p), root, "/schema/");
    InDirectoryStartsUnder(MetaPath(root, p), root, "/schema/");
    InDirectoryStartsUnder(SrcPath(root, p), root, "/src/");
    InDirectoryStartsUnder(MarkupPath(root, p), root, "/markup$/");
  }

  /** The five kinds of output never collide: each has its own directory right under the root. */
  lemma OutputKindsDisjoint(root: string, p: string, q: string)
    ensures DataPath(root, p) != SchemaPath(root, q) && DataPath(root, p) != MetaPath(root, q)
    ensures DataPath(root, p) != SrcPath(root, q) && DataPath(root, p) != MarkupPath(root, q)
    ensures SchemaPath(root, p) != SrcPath(root, q) && SchemaPath(root, p) != MarkupPath(root, q)
    ensures MetaPath(root, p) != SrcPath(root, q) && MetaPath(root, p) != MarkupPath(root, q)
    ensures SrcPath(root, p) != MarkupPath(root, q)
  {
    OutputPathLetters(root, p);
    OutputPathLetters(root, q);
  }

  /**
   * The meta asset sits in the schema's directory and has its own path
   * exactly when the file name contains `.schema`; otherwise it overwrites
   * the schema asset.
   */
  lemma MetaBesideSchema(root: string, filePath: string)
    ensures MetaPath(root, filePath) == SchemaPath(root, filePath) <==> !Includes(Basename(filePath), ".schema")
  {
    var dir := SchemaDirectory(root, filePath);
    var name := Basename(filePath);
    ReplaceFirstChanges(name, ".schema", ".meta");
    if dir + MetaName(name) == dir + name {
      assert MetaName(name) == (dir + MetaName(name))[|dir|..];
    }
  }

  /**
   * A name that ends in its first `.schema` gets that suffix swapped for
   * `.meta`: `button.schema` becomes `button.meta`.
   */
  lemma MetaNameOfSchemaFile(stem: string)
    requires !Includes(stem, ".schema")
    ensures MetaName(stem + ".schema") == stem + ".meta"
  {
    var s := stem + ".schema";
    forall j: nat | j < |stem| ensures !OccursAt(s, ".schema", j) {
      if j + 7 <= |stem| {
        assert s[j..j + 7] == stem[j..j + 7];
        assert !OccursAt(stem, ".schema", j);
      } else {
        var k := |stem| - j;
        assert s[j..j + 7][k] == s[|stem|] == '.' != ".schema"[k];
      }
    }
    ReplaceFirstOfSuffix(stem, ".schema", ".meta");
  }

  /** A file under the sources root is passed to `resolvePaths` with that root cut off. */
  lemma RelativePathUnderRoot(sourcesRoot: string, rest: string)
    ensures RelativePath(sourcesRoot, sourcesRoot + rest) == rest
  {
    ReplaceFirstOfPrefix(sourcesRoot, rest, "");
  }

  /** With the default options the data directory is reached through a doubled slash. */
  lemma DefaultDataPathHasDoubleSlash(filePath: string)
    ensures DataPath(DefaultDistOptions.outputFolderRoot, filePath) == "./_templates//data/" + Basename(filePath)
  {
    BasenameIdempotent(filePath);
  }

  /** The page files among `files`, in order: `files.filter(isPageBlock)`. */
  function PageFiles(files: seq<string>): (pages: seq<string>)
    ensures forall x :: x in pages <==> x in files && IsPageBlock(x)
  {
    Filter(IsPageBlock, files)
  }

  /** Every write in `es` lands under `root/`. */
  ghost predicate UnderRoot(es: seq<Emission>, root: string) {
    forall i :: 0 <= i < |es| ==> |root| + 1 <= |es[i].0| && es[i].0[..|root| + 1] == root + "/"
  }

  lemma UnderRootAppend(a: seq<Emission>, b: seq<Emission>, root: string)
    requires UnderRoot(a, root) && UnderRoot(b, root)
    ensures UnderRoot(a + b, root)
  {
    forall i | 0 <= i < |a + b|
      ensures |root| + 1 <= |(a + b)[i].0| && (a + b)[i].0[..|root| + 1] == root + "/"
    {
      if i < |a| { assert (a + b)[i] == a[i]; } else { assert (a + b)[i] == b[i - |a|]; }
    }
  }

  /** The schema and meta writes of one file land under the root. */
  lemma SchemaPairUnderRoot(root: string, p: string, schema: Asset, meta: Asset)
    ensures UnderRoot([(SchemaPath(root, p), schema), (MetaPath(root, p), meta)], root)
  {
    OutputPathLetters(root, p);
  }

  /** The writes of a pass that writes one asset per file, in file order. */
  function EachFile(entry: string -> Emission, files: seq<string>): seq<Emission>
    decreases |files|
  {
    if files == [] then []
    else EachFile(entry, files[..|files| - 1]) + [entry(files[|files| - 1])]
  }

  /** Write `k` of such a pass is the entry of file `k`. */
  lemma {:induction false} EachFileAt(entry: string -> Emission, files: seq<string>, k: nat)
    requires k < |files|
    ensures |EachFile(entry, files)| == |files|
    ensures EachFile(entry, files)[k] == entry(files[k])
    decreases |files|
  {
    var n := |files| - 1;
    var prefix := files[..n];
    if k < n {
      EachFileAt(entry, prefix, k);
      assert prefix[k] == files[k];
    } else if n > 0 {
      EachFileAt(entry, prefix, 0);
    }
  }

  /** One more file adds its entry at the end. */
  lemma EachFileNext(entry: string -> Emission, files: seq<string>, i: nat)
    requires i < |files|
    ensures EachFile(entry, files[..i + 1]) == EachFile(entry, files[..i]) + [entry(files[i])]
  {
    assert files[..i + 1][..i] == files[..i];
  }

  /** The pair at slot `k` of a run of pairs extended by one more pair. */
  lemma PairAfterAppend(before: seq<Emission>, last: seq<Emission>, pairs: nat, k: nat)
    requires |last| == 2 && |before| == 2 * pairs && k <= pairs
    ensures (before + last)[2 * k..2 * k + 2] == if k < pairs then before[2 * k..2 * k + 2] else last
  {
  }

  class YuzuDist {
    const options: DistOptions
    const core: Resolver
    const fs: FileSystem
    /** `JSON.stringify(value, null, 4)`. */
    const stringify: Json -> string

    constructor (userOptions: DistUserOptions, core: Resolver, fs: FileSystem, stringify: Json -> string)
      ensures options == MergeDistOptions(userOptions)
      ensures this.core == core && this.fs == fs && this.stringify == stringify
    {
      options := MergeDistOptions(userOptions);
      this.core := core;
      this.fs := fs;
      this.stringify := stringify;
    }

    /** `getFile(filePath)`: the contents, the basename and the block type. */
    function GetFile(filePath: string): (file: SourceFile)
      ensures file.name == Basename(filePath) && '/' !in file.name
      ensures file.blockType == GetBlockType(filePath)
    {
      SourceFile(fs.readFile(filePath), Basename(filePath), GetBlockType(filePath))
    }

    /** The context the emit hook builds once from the options. */
    function Externals(): Externals {
      Setup(options.sources.renderedPartialDirectories, options.sources.layoutsDirectory,
            options.autoSchemaProperties)
    }

    // ---- Data pass ----

    /** The data asset of a page file: its resolved data, serialised. */
    function DataEntry(externals: Externals, filePath: string): Emission {
      (DataPath(options.outputFolderRoot, filePath),
       Asset(stringify(core.resolveDataString(fs.readFile(filePath), filePath, externals, []))))
    }

    /** The writes of the data pass over `files`: one per page file, none for the rest. */
    function DataRun(externals: Externals, files: seq<string>): seq<Emission>
      decreases |files|
    {
      if files == [] then []
      else
        var p := files[|files| - 1];
        DataRun(externals, files[..|files| - 1]) + (if IsPageBlock(p) then [DataEntry(externals, p)] else [])
    }

    // ---- Schema pass ----

    /** The two writes of one schema file (schema, then meta), or the TypeError its patch throws. */
    function SchemaEntries(externals: Externals, filePath: string): Result<seq<Emission>> {
      var file := GetFile(filePath);
      var schema := core.resolveSchema(file.contents, externals);
      match Augment(IsPageBlock(filePath), schema)
      case Err(message) => Err(message)
      case Ok(augmented) =>
        var meta := core.resolvePaths(file.contents, externals, RelativePath(options.sources.root, filePath));
        Ok([(SchemaPath(options.outputFolderRoot, filePath), Asset(stringify(augmented))),
            (MetaPath(options.outputFolderRoot, filePath), Asset(stringify(meta)))])
    }

    /** The writes of the schema pass over `files`, up to the first file that throws, and what it threw. */
    function SchemaRun(externals: Externals, files: seq<string>): (seq<Emission>, Option<string>)
      decreases |files|
    {
      if files == [] then ([], None)
      else
        var before := SchemaRun(externals, files[..|files| - 1]);
        if before.1.Some? then before
        else match SchemaEntries(externals, files[|files| - 1])
          case Err(message) => (before.0, Some(message))
          case Ok(es) => (before.0 + es, None)
    }

    /** The data pass over one more file: that file's write if it is a page file. */
    lemma DataRunNext(externals: Externals, files: seq<string>, i: nat)
      requires i < |files|
      ensures DataRun(externals, files[..i + 1]) ==
        DataRun(externals, files[..i]) + (if IsPageBlock(files[i]) then [DataEntry(externals, files[i])] else [])
    {
      assert files[..i + 1][..i] == files[..i];
      assert files[..i + 1][i] == files[i];
    }

    /** The schema pass over one more file, in terms of that file's entries. */
    lemma SchemaRunNext(externals: Externals, files: seq<string>, i: nat)
      requires i < |files|
      requires SchemaRun(externals, files[..i]).1.None?
      ensures SchemaRun(externals, files[..i + 1]) ==
        match SchemaEntries(externals, files[i])
        case Err(message) => (SchemaRun(externals, files[..i]).0, Some(message))
        case Ok(es) => (SchemaRun(externals, files[..i]).0 + es, None)
    {
      assert files[..i + 1][..i] == files[..i];
      assert files[..i + 1][i] == files[i];
    }

    /** Once a schema file has thrown, the later ones add nothing. */
    lemma {:induction false} SchemaRunStopsAtThrow(externals: Externals, files: seq<string>, n: nat)
      requires n <= |files|
      requires SchemaRun(externals, files[..n]).1.Some?
      ensures SchemaRun(externals, files) == SchemaRun(externals, files[..n])
      decreases |files|
    {
      if n < |files| {
        var files' := files[..|files| - 1];
        assert files'[..n] == files[..n];
        SchemaRunStopsAtThrow(externals, files', n);
      } else {
        assert files[..n] == files;
      }
    }

    // ---- Hbs and markup passes ----

    /** The hbs asset of a file: its contents, verbatim, under `src`. */
    function HbsEntry(filePath: string): Emission {
      (SrcPath(options.outputFolderRoot, filePath), Asset(fs.readFile(filePath)))
    }

    /** The markup asset of a file: its contents, verbatim, under `markup$`. */
    function MarkupEntry(filePath: string): Emission {
      (MarkupPath(options.outputFolderRoot, filePath), Asset(fs.readFile(filePath)))
    }

    /** The writes of the hbs pass: every file's contents, verbatim, under `src`. */
    function HbsRun(files: seq<string>): seq<Emission> {
      EachFile(HbsEntry, files)
    }

    /** The writes of the markup pass: every file's contents, verbatim, under `markup$`. */
    function MarkupRun(files: seq<string>): seq<Emission> {
      EachFile(MarkupEntry, files)
    }

    // ---- The emit hook ----

    /** All writes of one emit, in order, and the TypeError that ends it early, if any. */
    function BuildEmissions(): (seq<Emission>, Option<string>) {
      var externals := Externals();
      var data := DataRun(externals, fs.glob(options.sources.data));
      var schema := SchemaRun(externals, fs.glob(options.sources.schema));
      if schema.1.Some? then (data + schema.0, schema.1)
      else (data + schema.0 + HbsRun(fs.glob(options.sources.hbs)) + MarkupRun(fs.glob(options.sources.markup)), None)
    }

    /** The assets after one emit hook: data, schema, hbs then markup, stopping at a TypeError. */
    function Build(assets: map<string, Asset>): (map<string, Asset>, Option<string>) {
      var externals := Externals();
      var afterData := EmitAll(assets, DataRun(externals, fs.glob(options.sources.data)));
      var schema := SchemaRun(externals, fs.glob(options.sources.schema));
      var afterSchema := EmitAll(afterData, schema.0);
      if schema.1.Some? then (afterSchema, schema.1)
      else
        var afterHbs := EmitAll(afterSchema, HbsRun(fs.glob(options.sources.hbs)));
        (EmitAll(afterHbs, MarkupRun(fs.glob(options.sources.markup))), None)
    }

    // ---- What each pass writes ----

    /** The data pass writes one asset per page file, in order, at its data path; other files write nothing. */
    lemma {:induction false} DataRunFollowsPages(externals: Externals, files: seq<string>)
      ensures |DataRun(externals, files)| == |PageFiles(files)|
      ensures forall k :: 0 <= k < |PageFiles(files)| ==>
        DataRun(externals, files)[k] == DataEntry(externals, PageFiles(files)[k])
      decreases |files|
    {
      if files != [] {
        var prefix := files[..|files| - 1];
        DataRunFollowsPages(externals, prefix);
        assert PageFiles(files) == PageFiles(prefix) + (if IsPageBlock(files[|files| - 1]) then [files[|files| - 1]] else []);
      }
    }

    /**
     * Without a TypeError the schema pass writes two assets per file, in file
     * order: the file's schema asset, then its meta asset.
     */
    lemma SchemaRunWritesPairs(externals: Externals, files: seq<string>)
      requires SchemaRun(externals, files).1.None?
      ensures |SchemaRun(externals, files).0| == 2 * |files|
      ensures forall k :: 0 <= k < |files| ==>
        SchemaEntries(externals, files[k]) == Ok(SchemaRun(externals, files).0[2 * k..2 * k + 2])
    {
      SchemaRunLength(externals, files);
      if files != [] {
        forall k | 0 <= k < |files|
          ensures SchemaEntries(externals, files[k]) == Ok(SchemaRun(externals, files).0[2 * k..2 * k + 2])
        {
          SchemaRunPair(externals, files, k);
        }
      }
    }

    /** Without a TypeError the schema pass writes exactly two assets per file. */
    lemma {:induction false} SchemaRunLength(externals: Externals, files: seq<string>)
      requires SchemaRun(externals, files).1.None?
      ensures |SchemaRun(externals, files).0| == 2 * |files|
      decreases |files|
    {
      if files != [] {
        SchemaRunLast(externals, files);
        SchemaRunLength(externals, files[..|files| - 1]);
      }
    }

    /** One file's pair of writes within a schema pass that throws nowhere. */
    lemma {:induction false} SchemaRunPair(externals: Externals, files: seq<string>, k: nat)
      requires SchemaRun(externals, files).1.None? && k < |files|
      requires |SchemaRun(externals, files).0| == 2 * |files|
      ensures SchemaEntries(externals, files[k]) == Ok(SchemaRun(externals, files).0[2 * k..2 * k + 2])
      decreases |files|
    {
      var n := |files| - 1;
      var prefix := files[..n];
      SchemaRunLast(externals, files);
      SchemaRunLength(externals, prefix);
      var before := SchemaRun(externals, prefix).0;
      var last := SchemaEntries(externals, files[n]).value;
      PairAfterAppend(before, last, n, k);
      if k < n {
        SchemaRunPair(externals, prefix, k);
        assert files[k] == prefix[k];
        assert SchemaRun(externals, files).0[2 * k..2 * k + 2] == before[2 * k..2 * k + 2];
      } else {
        assert SchemaRun(externals, files).0[2 * k..2 * k + 2] == last;
      }
    }

    lemma SchemaRunLast(externals: Externals, files: seq<string>)
      requires files != [] && SchemaRun(externals, files).1.None?
      ensures SchemaRun(externals, files[..|files| - 1]).1.None?
      ensures SchemaEntries(externals, files[|files| - 1]).Ok?
      ensures |SchemaEntries(externals, files[|files| - 1]).value| == 2
      ensures SchemaRun(externals, files).0 ==
              SchemaRun(externals, files[..|files| - 1]).0 + SchemaEntries(externals, files[|files| - 1]).value
    {
    }

    /**
     * One schema file fails exactly when its patch throws. Otherwise it writes
     * two assets in the schema's directory, and the second replaces the first
     * exactly when the file name does not contain `.schema`.
     */
    lemma SchemaEntriesOutcome(externals: Externals, p: string)
      ensures SchemaEntries(externals, p).Err? <==>
              Throws(IsPageBlock(p), core.resolveSchema(GetFile(p).contents, externals))
      ensures SchemaEntries(externals, p).Ok? ==>
              && |SchemaEntries(externals, p).value| == 2
              && SchemaEntries(externals, p).value[0].0 == SchemaPath(options.outputFolderRoot, p)
              && (SchemaEntries(externals, p).value[1].0 == SchemaEntries(externals, p).value[0].0
                  <==> !Includes(Basename(p), ".schema"))
    {
      MetaBesideSchema(options.outputFolderRoot, p);
    }

    /** A file `dir/stem.schema` has its meta asset written as `stem.meta` beside the schema asset. */
    lemma SchemaFileMetaPath(externals: Externals, dir: string, stem: string)
      requires '/' !in stem && !Includes(stem, ".schema")
      ensures SchemaEntries(externals, dir + "/" + stem + ".schema").Ok? ==>
              SchemaEntries(externals, dir + "/" + stem + ".schema").value[1].0 ==
              SchemaDirectory(options.outputFolderRoot, dir + "/" + stem + ".schema") + stem + ".meta"
    {
      var p := dir + "/" + stem + ".schema";
      assert dir + "/" + (stem + ".schema") == p;
      BasenameOfChild(dir, stem + ".schema");
      MetaNameOfSchemaFile(stem);
    }

    /** The hbs pass writes each file's contents verbatim under `src`, one asset per file, in order. */
    lemma {:induction false} HbsRunCopies(files: seq<string>)
      ensures |HbsRun(files)| == |files|
      ensures forall k :: 0 <= k < |files| ==>
        HbsRun(files)[k] == (SrcPath(options.outputFolderRoot, files[k]), Asset(fs.readFile(files[k])))
    {
      if files != [] {
        EachFileAt(HbsEntry, files, 0);
        forall k | 0 <= k < |files|
          ensures HbsRun(files)[k] == (SrcPath(options.outputFolderRoot, files[k]), Asset(fs.readFile(files[k])))
        {
          EachFileAt(HbsEntry, files, k);
        }
      }
    }

    /** The markup pass writes each file's contents verbatim under `markup$`, one asset per file, in order. */
    lemma {:induction false} MarkupRunCopies(files: seq<string>)
      ensures |MarkupRun(files)| == |files|
      ensures forall k :: 0 <= k < |files| ==>
        MarkupRun(files)[k] == (MarkupPath(options.outputFolderRoot, files[k]), Asset(fs.readFile(files[k])))
    {
      if files != [] {
        EachFileAt(MarkupEntry, files, 0);
        forall k | 0 <= k < |files|
          ensures MarkupRun(files)[k] == (MarkupPath(options.outputFolderRoot, files[k]), Asset(fs.readFile(files[k])))
        {
          EachFileAt(MarkupEntry, files, k);
        }
      }
    }

    /** The four passes together are one sequence of writes, fixed by the options and the sources alone. */
    lemma BuildIsOneSequence(assets: map<string, Asset>)
      ensures Build(assets) == (EmitAll(assets, BuildEmissions().0), BuildEmissions().1)
    {
      var externals := Externals();
      var data := DataRun(externals, fs.glob(options.sources.data));
      var schema := SchemaRun(externals, fs.glob(options.sources.schema));
      var hbs := HbsRun(fs.glob(options.sources.hbs));
      var markup := MarkupRun(fs.glob(options.sources.markup));
      EmitAllAppend(assets, data, schema.0);
      if schema.1.None? {
        EmitAllAppend(assets, data + schema.0, hbs);
        EmitAllAppend(assets, data + schema.0 + hbs, markup);
      }
    }

    /** Running the emit hook twice over unchanged sources leaves the same assets and the same outcome. */
    lemma BuildIdempotent(assets: map<string, Asset>)
      ensures Build(Build(assets).0) == Build(assets)
    {
      BuildIsOneSequence(assets);
      BuildIsOneSequence(Build(assets).0);
      EmitAllTwice(assets, BuildEmissions().0);
    }

    /** Assets outside the output root are left exactly as they were. */
    lemma BuildKeepsOtherAssets(assets: map<string, Asset>, key: string)
      requires !(|options.outputFolderRoot| + 1 <= |key| && key[..|options.outputFolderRoot| + 1] == options.outputFolderRoot + "/")
      ensures key in Build(assets).0 <==> key in assets
      ensures key in assets ==> Build(assets).0[key] == assets[key]
    {
      var es := BuildEmissions().0;
      BuildEmissionsUnderRoot();
      BuildIsOneSequence(assets);
      EmitAllUntouched(assets, es);
      assert key !in WrittenPaths(es);
    }

    lemma BuildEmissionsUnderRoot()
      ensures UnderRoot(BuildEmissions().0, options.outputFolderRoot)
    {
      var root := options.outputFolderRoot;
      var externals := Externals();
      var data := DataRun(externals, fs.glob(options.sources.data));
      var schema := SchemaRun(externals, fs.glob(options.sources.schema));
      DataRunUnderRoot(externals, fs.glob(options.sources.data));
      SchemaRunUnderRoot(externals, fs.glob(options.sources.schema));
      UnderRootAppend(data, schema.0, root);
      if schema.1.None? {
        HbsRunUnderRoot(fs.glob(options.sources.hbs));
        MarkupRunUnderRoot(fs.glob(options.sources.markup));
        UnderRootAppend(data + schema.0, HbsRun(fs.glob(options.sources.hbs)), root);
        UnderRootAppend(data + schema.0 + HbsRun(fs.glob(options.sources.hbs)), MarkupRun(fs.glob(options.sources.markup)), root);
      }
    }

    lemma {:induction false} DataRunUnderRoot(externals: Externals, files: seq<string>)
      ensures UnderRoot(DataRun(externals, files), options.outputFolderRoot)
      decreases |files|
    {
      if files != [] {
        var p := files[|files| - 1];
        DataRunUnderRoot(externals, files[..|files| - 1]);
        var root := options.outputFolderRoot;
        assert DataPath(root, p)[..|root| + 1] == root + "/";
        UnderRootAppend(DataRun(externals, files[..|files| - 1]),
                        if IsPageBlock(p) then [DataEntry(externals, p)] else [], root);
      }
    }

    lemma {:induction false} SchemaRunUnderRoot(externals: Externals, files: seq<string>)
      ensures UnderRoot(SchemaRun(externals, files).0, options.outputFolderRoot)
      decreases |files|
    {
      if files != [] {
        var p := files[|files| - 1];
        var prefix := files[..|files| - 1];
        SchemaRunUnderRoot(externals, prefix);
        if SchemaRun(externals, prefix).1.None? && SchemaEntries(externals, p).Ok? {
          SchemaEntriesUnderRoot(externals, p);
          UnderRootAppend(SchemaRun(externals, prefix).0, SchemaEntries(externals, p).value, options.outputFolderRoot);
        }
      }
    }

    /** Both writes of one schema file land under the output root. */
    lemma SchemaEntriesUnderRoot(externals: Externals, p: string)
      requires SchemaEntries(externals, p).Ok?
      ensures UnderRoot(SchemaEntries(externals, p).value, options.outputFolderRoot)
    {
      var file := GetFile(p);
      var augmented := Augment(IsPageBlock(p), core.resolveSchema(file.contents, externals));
      var meta := core.resolvePaths(file.contents, externals, RelativePath(options.sources.root, p));
      SchemaPairUnderRoot(options.outputFolderRoot, p, Asset(stringify(augmented.value)), Asset(stringify(meta)));
    }

    lemma {:induction false} HbsRunUnderRoot(files: seq<string>)
      ensures UnderRoot(HbsRun(files), options.outputFolderRoot)
      decreases |files|
    {
      if files != [] {
        var p := files[|files| - 1];
        HbsRunUnderRoot(files[..|files| - 1]);
        var root := options.outputFolderRoot;
        assert SrcPath(root, p)[..|root| + 1] == root + "/";
        UnderRootAppend(HbsRun(files[..|files| - 1]), [(SrcPath(root, p), Asset(fs.readFile(p)))], root);
      }
    }

    lemma {:induction false} MarkupRunUnderRoot(files: seq<string>)
      ensures UnderRoot(MarkupRun(files), options.outputFolderRoot)
      decreases |files|
    {
      if files != [] {
        var p := files[|files| - 1];
        MarkupRunUnderRoot(files[..|files| - 1]);
        var root := options.outputFolderRoot;
        assert MarkupPath(root, p)[..|root| + 1] == root + "/";
        UnderRootAppend(MarkupRun(files[..|files| - 1]), [(MarkupPath(root, p), Asset(fs.readFile(p)))], root);
      }
    }

    /** `emitFile(filename, output, compilation)`: store one asset, replacing any at that path. */
    method EmitFile(filename: string, output: string, compilation: Compilation)
      modifies compilation`assets
      ensures compilation.assets == old(compilation.assets)[filename := Asset(output)]
      ensures compilation.assets[filename].source == output
      ensures compilation.assets[filename].Size() == Utf16Length(output)
    {
      compilation.assets := compilation.assets[filename := Asset(output)];
    }

    /** `addData`: one data asset per page file matched by the data glob. */
    method AddData(compilation: Compilation, externals: Externals)
      modifies compilation`assets
      ensures compilation.assets == EmitAll(old(compilation.assets), DataRun(externals, fs.glob(options.sources.data)))
    {
      var jsonFiles := fs.glob(options.sources.data);
      var i := 0;
      while i < |jsonFiles|
        invariant 0 <= i <= |jsonFiles|
        invariant compilation.assets == EmitAll(old(compilation.assets), DataRun(externals, jsonFiles[..i]))
      {
        var filePath := jsonFiles[i];
        DataRunNext(externals, jsonFiles, i);
        if IsPageBlock(filePath) {
          var file := GetFile(filePath);
          var data := core.resolveDataString(file.contents, filePath, externals, []);
          var dataEmitPath := DataPath(options.outputFolderRoot, filePath);
          EmitFile(dataEmitPath, stringify(data), compilation);
          assert (dataEmitPath, Asset(stringify(data))) == DataEntry(externals, filePath);
          EmitAllExtend(old(compilation.assets), DataRun(externals, jsonFiles[..i]), DataEntry(externals, filePath));
        } else {
          assert DataRun(externals, jsonFiles[..i]) + [] == DataRun(externals, jsonFiles[..i]);
        }
        i := i + 1;
      }
      assert jsonFiles[..i] == jsonFiles;
    }

    /** `addSchema`: the schema and meta assets of every schema file; a TypeError ends the pass. */
    method AddSchema(compilation: Compilation, externals: Externals) returns (thrown: Option<string>)
      modifies compilation`assets
      ensures (compilation.assets, thrown) ==
              (EmitAll(old(compilation.assets), SchemaRun(externals, fs.glob(options.sources.schema)).0),
               SchemaRun(externals, fs.glob(options.sources.schema)).1)
    {
      var schemaFiles := fs.glob(options.sources.schema);
      var i := 0;
      while i < |schemaFiles|
        invariant 0 <= i <= |schemaFiles|
        invariant SchemaRun(externals, schemaFiles[..i]).1.None?
        invariant compilation.assets == EmitAll(old(compilation.assets), SchemaRun(externals, schemaFiles[..i]).0)
      {
        ghost var before := SchemaRun(externals, schemaFiles[..i]).0;
        ghost var entries := SchemaEntries(externals, schemaFiles[i]);
        SchemaRunNext(externals, schemaFiles, i);
        var fileThrown := AddSchemaFile(compilation, externals, schemaFiles[i]);
        if fileThrown.Some? {
          thrown := fileThrown;
          SchemaRunStopsAtThrow(externals, schemaFiles, i + 1);
          return;
        }
        EmitAllAppend(old(compilation.assets), before, entries.value);
        i := i + 1;
      }
      assert schemaFiles[..i] == schemaFiles;
      thrown := None;
    }

    /** The `forEach` callback of `addSchema` for one file: two writes, or the TypeError of its patch. */
    method AddSchemaFile(compilation: Compilation, externals: Externals, filePath: string) returns (thrown: Option<string>)
      modifies compilation`assets
      ensures thrown.Some? <==> SchemaEntries(externals, filePath).Err?
      ensures thrown.Some? ==>
        thrown.value == SchemaEntries(externals, filePath).message && compilation.assets == old(compilation.assets)
      ensures thrown.None? ==>
        compilation.assets == EmitAll(old(compilation.assets), SchemaEntries(externals, filePath).value)
    {
      var file := GetFile(filePath);
      var schema := core.resolveSchema(file.contents, externals);
      var augmented := Augment(IsPageBlock(filePath), schema);
      if augmented.Err? {
        return Some(augmented.message);
      }
      var schemaEmitPath := SchemaPath(options.outputFolderRoot, filePath);
      EmitFile(schemaEmitPath, stringify(augmented.value), compilation);
      var schemaMeta := core.resolvePaths(file.contents, externals, RelativePath(options.sources.root, filePath));
      var metaEmitPath := MetaPath(options.outputFolderRoot, filePath);
      EmitFile(metaEmitPath, stringify(schemaMeta), compilation);
      ghost var e1, e2 := (schemaEmitPath, Asset(stringify(augmented.value))), (metaEmitPath, Asset(stringify(schemaMeta)));
      EmitAllExtend(old(compilation.assets), [], e1);
      EmitAllExtend(old(compilation.assets), [e1], e2);
      assert [e1] + [e2] == [e1, e2];
      thrown := None;
    }

    /** `addHbs`: every template file's contents, verbatim. */
    method AddHbs(compilation: Compilation)
      modifies compilation`assets
      ensures compilation.assets == EmitAll(old(compilation.assets), HbsRun(fs.glob(options.sources.hbs)))
    {
      var hbsFiles := fs.glob(options.sources.hbs);
      var i := 0;
      while i < |hbsFiles|
        invariant 0 <= i <= |hbsFiles|
        invariant compilation.assets == EmitAll(old(compilation.assets), HbsRun(hbsFiles[..i]))
      {
        var filePath := hbsFiles[i];
        EachFileNext(HbsEntry, hbsFiles, i);
        var file := GetFile(filePath);
        var hbsEmitPath := SrcPath(options.outputFolderRoot, filePath);
        EmitFile(hbsEmitPath, file.contents, compilation);
        EmitAllExtend(old(compilation.assets), HbsRun(hbsFiles[..i]), (hbsEmitPath, Asset(file.contents)));
        i := i + 1;
      }
      assert hbsFiles[..i] == hbsFiles;
    }

    /** `addMarkup`: every markup file's contents, verbatim. */
    method AddMarkup(compilation: Compilation)
      modifies compilation`assets
      ensures compilation.assets == EmitAll(old(compilation.assets), MarkupRun(fs.glob(options.sources.markup)))
    {
      var markupFiles := fs.glob(options.sources.markup);
      var i := 0;
      while i < |markupFiles|
        invariant 0 <= i <= |markupFiles|
        invariant compilation.assets == EmitAll(old(compilation.assets), MarkupRun(markupFiles[..i]))
      {
        var filePath := markupFiles[i];
        EachFileNext(MarkupEntry, markupFiles, i);
        var file := GetFile(filePath);
        var markupEmitPath := MarkupPath(options.outputFolderRoot, filePath);
        EmitFile(markupEmitPath, file.contents, compilation);
        EmitAllExtend(old(compilation.assets), MarkupRun(markupFiles[..i]), (markupEmitPath, Asset(file.contents)));
        i := i + 1;
      }
      assert markupFiles[..i] == markupFiles;
    }

    /**
     * The body of the emit hook `apply` registers: one setup, then the four
     * passes in order. A TypeError from the schema pass escapes the hook,
     * so the hbs and markup passes do not run and `callback` is never called.
     */
    method Apply(compilation: Compilation) returns (thrown: Option<string>)
      modifies compilation`assets
      ensures (compilation.assets, thrown) == Build(old(compilation.assets))
    {
      var externals := Externals();
      AddData(compilation, externals);
      thrown := AddSchema(compilation, externals);
      if thrown.None? {
        AddHbs(compilation);
        AddMarkup(compilation);
      }
    }
  }
}
