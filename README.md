# Yuzu definition webpack plugins: a Dafny model

The repository holds two webpack plugins for Yuzu template definitions.

- **`YuzuDist`** (`plugins/dist.js`) copies a template source tree into the
  compilation's assets on every emit. It first works out each file's block
  type, the segment at index 3 of its `/`-split path, with `_dataStructures`
  renamed to `blocks`. Then four passes run in order:
  - data: page-block JSON files, resolved and serialised;
  - schema: every schema file, plus a meta file beside it. A non-page
    schema whose `properties` is a truthy object and whose `type` loosely
    equals `"object"` first gets the reserved `_ref` and `_modifiers`
    properties; every other schema is written as resolved;
  - hbs: Handlebars sources, copied verbatim;
  - markup: HTML sources, copied verbatim.

  Each write goes through `emitFile`, a keyed store where the last write wins.
- **`YuzuTemplatePaths`** (`plugins/template-paths.js`) filters the
  compilation's file dependencies. It keeps those that contain the templates
  folder name and whose `path.extname` is `.json`. It hands them to the
  definition core's `getPreviews` and stores the serialised result as one
  asset.

Modules:

| file | module | what it holds |
|---|---|---|
| `wrappers.dfy` | `Wrappers` | `Option` and `Result` |
| `js_strings.dfy` | `JsStrings` | The JavaScript string operations the plugins use: `indexOf`/`includes`, `replace` with a string pattern (first occurrence only), `split`/`join` on one character, and `.length` in UTF-16 code units |
| `node_path.dfy` | `NodePath` | Node's POSIX `path.basename` and `path.extname` |
| `json.dfy` | `Json` | JSON values with objects as ordered member lists, property assignment, truthiness and loose `== "object"` |
| `webpack.dfy` | `Webpack` | The `Compilation` class with its mutable `assets` table; `EmitAll`, the specification of a sequence of `emitFile` writes |
| `yuzu_core.dfy` | `YuzuCore` | The interface of `yuzu-definition-core`, `glob` and `fs`, given as values of function type |
| `path_classifier.dfy` | `PathClassifier` | `getBlockType`, `isPageBlock` |
| `schema_augmenter.dfy` | `SchemaAugmenter` | The conditional in-place patch of a schema's `properties` |
| `js_arrays.dfy` | `JsArrays` | `Array.prototype.filter` with a pure callback |
| `dist.dfy` | `Dist` | Options, output paths, the four passes and `apply` of `YuzuDist` |
| `template_paths.dfy` | `TemplatePaths` | Options, the dependency filter and `apply` of `YuzuTemplatePaths` |

Each pass is a `method` with a `while` loop that updates
`compilation.assets`. The loop invariant ties the table after `i` files to
`EmitAll(old assets, Run(files[..i]))`. Here `Run` is a function built from
the end of the list: `DataRun`, `SchemaRun`, `HbsRun` or `MarkupRun`. The
lemmas then say what those runs write. `Apply` is proved equal to `Build`,
the composition of the four runs.

Modelling decisions:
- **`undefined` block type.** `getBlockType` of a path with fewer than four
  segments is `undefined` in JavaScript. It is `None` here, and an output path
  built from it contains the text `undefined`, as a template literal prints
  it.
- **TypeErrors end the emit.** Class bodies are strict code, so the schema
  patch throws a TypeError in three cases:
  - it reads `properties` of a `null` non-page schema;
  - `properties` is truthy and `type` cannot be converted to a primitive for
    `== "object"`: an object with its own `toString` member, or an array
    holding one at any depth;
  - it assigns into a truthy primitive `properties`.

  The exception leaves the emit callback. The model returns it as
  `Some(message)`. The schema files after it are not processed, and the hbs
  and markup passes do not run.
- **`size()`.** It is the JavaScript `.length` of the output: UTF-16 code
  units, not characters.
- **Shallow options merge.** A caller-supplied `sources` object replaces the
  whole default `sources` object.

## Model

| member | source | states |
|---|---|---|
| PathClassifier.GetBlockType | plugins/dist.js:47-51 | The block type is absent exactly when the path has fewer than four `/`-segments; otherwise it has no `/` and is never `_dataStructures` (that name is renamed) |
| PathClassifier.BlockTypeOfComponents | plugins/dist.js:43-51 | For a path of `/`-free components, the block type is the fourth component, renamed from `_dataStructures` to `blocks`; the path is a page block exactly when that component is `pages` |
| PathClassifier.BlockTypeOfFourthComponent | plugins/dist.js:47-51 | Whatever follows the fourth component, the block type is that component, normalised |
| PathClassifier.DataStructuresAreBlocks | plugins/dist.js:43-51 | Paths under a `_dataStructures` directory at index 3 have block type `blocks` and are never page blocks |
| PathClassifier.NormaliseSegment | plugins/dist.js:49 | Definition: `_dataStructures` becomes `blocks`, and every other segment is kept |
| PathClassifier.BlockTypeText | plugins/dist.js:87 | Definition: a block type as a template literal prints it, `undefined` for a missing one |
| PathClassifier.IsPageBlock | plugins/dist.js:43-45 | Definition: a path is a page block exactly when its block type is present and equal to `pages` |
| PathClassifier.PagesArePageBlocks | plugins/dist.js:43-45 | Paths under a `pages` directory at index 3 are page blocks |
| SchemaAugmenter.Augment | plugins/dist.js:81-85 | The patch throws exactly when a non-page schema is `null`, or its `properties` is truthy and its `type` cannot be converted for `== "object"`, or its truthy `properties` is a non-array primitive under `type == "object"`. It patches exactly non-page schemas with object `properties` and loosely `"object"` type: `_ref` and `_modifiers` are set to their fixed schemas, every other property and every other top-level key keeps its value, and the top-level key order is kept. Every other schema is emitted unchanged |
| SchemaAugmenter.Qualifies | plugins/dist.js:82 | Definition of the guard: not a page, `properties` truthy and `type` loosely equal to `"object"` |
| SchemaAugmenter.Throws | plugins/dist.js:82-84 | Definition: a non-page schema throws when it is `null`, when its `properties` is truthy and comparing its `type` with `"object"` throws, or when it passes the guard and its `properties` is neither an object nor an array |
| SchemaAugmenter.PatchesObject | plugins/dist.js:82-84 | Definition: the guard holds and `properties` is an object, so the two assignments add real entries |
| SchemaAugmenter.PatchProperties | plugins/dist.js:83-84 | The two assignments on an object `properties`: `_ref` and `_modifiers` read back as their fixed schemas, every other property and every other top-level key keeps its value, and the top-level key order is kept |
| SchemaAugmenter.UnconvertibleTypeThrows | plugins/dist.js:82 | A non-page schema with object `properties` throws when its `type`, or an item of an array `type`, has its own `toString` member |
| SchemaAugmenter.AugmentIdempotent | plugins/dist.js:82-85 | Patching an already patched schema changes nothing |
| SchemaAugmenter.PageSchemasUntouched | plugins/dist.js:82 | Page schemas are never patched and never throw |
| Dist.MergeDistOptions | plugins/dist.js:8-41 | Each supplied top-level key replaces its default, and the others keep the defaults (the root `./_templates/`, the default sources and the three default auto-schema properties); `sources` is replaced as a whole |
| Dist.DataPath | plugins/dist.js:69 | Definition: the root, then `/data/`, then the basename of the file's basename |
| Dist.SchemaDirectory | plugins/dist.js:87 | Definition: the root, then `/schema/`, the printed block type and `/`, the directory shared by a schema asset and its meta asset |
| Dist.SchemaPath | plugins/dist.js:87 | Definition: the root, then `/schema/`, the printed block type, `/`, and the file's basename |
| Dist.MetaName | plugins/dist.js:91 | Definition: the file name with its first `.schema` replaced by `.meta`, unchanged if it has none |
| Dist.MetaPath | plugins/dist.js:91 | Definition: the schema asset's directory followed by the meta name of the file's basename |
| Dist.SrcPath | plugins/dist.js:102 | Definition: the root, then `/src/`, the printed block type, `/`, and the file's basename |
| Dist.MarkupPath | plugins/dist.js:113 | Definition: the root, then `/markup$/`, the printed block type, `/`, and the file's basename |
| Dist.RelativePath | plugins/dist.js:90 | Definition: the file path with the first occurrence of `sources.root` removed, unchanged if it has none |
| Dist.OutputKindsDisjoint | plugins/dist.js:69-113 | For any two files, no data path equals a schema, meta, src or markup path; no schema or meta path equals a src or markup path; and no src path equals a markup path. These are the nine pairs of different directories; a schema path and a meta path can coincide (see `MetaBesideSchema`) |
| Dist.OutputPathStarts | plugins/dist.js:69-113 | Each output path starts with the root followed by its whole directory: `root/data/`, `root/schema/` (schema and meta), `root/src/` or `root/markup$/` |
| Dist.OutputPathLetters | plugins/dist.js:69-113 | The two characters after `root/` tell the kinds apart: `da` for data, `sc` for schema and meta, `sr` for src, `ma` for markup |
| Dist.MetaBesideSchema | plugins/dist.js:87-92 | The meta asset is in the schema's directory, and its path differs from the schema asset's exactly when the file name contains `.schema`; otherwise the meta asset overwrites the schema asset |
| Dist.MetaNameOfSchemaFile | plugins/dist.js:91 | When `stem` does not contain `.schema`, `stem.schema` gives the meta name `stem.meta` |
| Dist.RelativePathUnderRoot | plugins/dist.js:90 | A file under `sources.root` reaches `resolvePaths` with that root prefix removed |
| Dist.DefaultDataPathHasDoubleSlash | plugins/dist.js:69 | With the default root, data paths are `./_templates//data/<basename>` |
| Dist.PageFiles | plugins/dist.js:64-65 | The page files are `files` filtered by `IsPageBlock`, in order; a file is among them exactly when it is in the list and is a page block |
| YuzuCore.Setup | plugins/dist.js:133-136 | Definition: the externals record built from the partial directories, the layouts directory and the auto-schema properties |
| Dist.YuzuDist.constructor | plugins/dist.js:38-41 | The options are the shallow merge of the caller's options over the defaults |
| Dist.YuzuDist.GetFile | plugins/dist.js:53-59 | The name is the path's basename, with no `/`, and the type is the path's block type |
| Dist.YuzuDist.Externals | plugins/dist.js:133-136 | Definition: `setup` of the partial directories and layouts directory from `sources` and the auto-schema properties |
| Dist.YuzuDist.DataEntry | plugins/dist.js:66-70 | Definition: a page file's data write, the serialised resolved data at its data path |
| Dist.YuzuDist.HbsEntry | plugins/dist.js:100-103 | Definition: a template file's write, its contents verbatim at its src path |
| Dist.YuzuDist.MarkupEntry | plugins/dist.js:111-114 | Definition: a markup file's write, its contents verbatim at its markup path |
| Dist.YuzuDist.BuildEmissions | plugins/dist.js:138-141 | Definition: the data writes, then the schema writes, then unless the schema pass threw the hbs and markup writes, with the TypeError if any |
| Dist.YuzuDist.DataRun | plugins/dist.js:61-73 | Definition of the data pass's writes: the writes over all but the last file, then the last file's data write if it is a page block |
| Dist.YuzuDist.SchemaRun | plugins/dist.js:75-94 | Definition of the schema pass's writes: the writes over all but the last file and, unless something already threw, the last file's two writes or its TypeError |
| Dist.YuzuDist.HbsRun | plugins/dist.js:96-105 | Definition: one src write per file, in order |
| Dist.YuzuDist.MarkupRun | plugins/dist.js:107-116 | Definition: one markup write per file, in order |
| Dist.YuzuDist.Build | plugins/dist.js:129-145 | Definition of one emit: the data, then schema writes, then unless the schema pass threw the hbs and markup writes, applied to the old assets, with the TypeError if any |
| Dist.YuzuDist.DataRunFollowsPages | plugins/dist.js:61-73 | The data pass writes exactly one asset per page-block file, in order, at `root/data/<basename>`, holding the serialised resolved data; non-page files write nothing |
| Dist.YuzuDist.SchemaEntries | plugins/dist.js:79-92 | Definition of one schema file's writes: the patch's TypeError, or the serialised patched schema at the schema path followed by the serialised resolved paths at the meta path |
| Dist.YuzuDist.SchemaEntriesOutcome | plugins/dist.js:79-92 | A schema file fails exactly when its patch throws; otherwise it writes two assets, the first at its schema path, and the second lands on the same path exactly when the file name lacks `.schema` |
| Dist.YuzuDist.SchemaFileMetaPath | plugins/dist.js:87-91 | For `dir/stem.schema` with a `/`-free stem not containing `.schema`, the meta asset is written at the schema directory followed by `stem.meta` |
| Dist.YuzuDist.DataRunNext | plugins/dist.js:64-72 | The data pass over the first `i+1` files is the pass over the first `i`, followed by file `i`'s data write when it is a page file |
| Dist.YuzuDist.SchemaRunNext | plugins/dist.js:78-93 | While nothing has thrown, the pass over the first `i+1` files is the pass over the first `i` followed by file `i`'s writes, or stops with its TypeError |
| Dist.YuzuDist.SchemaRunStopsAtThrow | plugins/dist.js:78-93 | After a schema file has thrown, later files add nothing |
| Dist.YuzuDist.SchemaRunWritesPairs | plugins/dist.js:78-93 | If nothing throws, the schema pass writes two assets per file, in file order: the file's schema asset, then its meta asset |
| Dist.YuzuDist.SchemaRunLength | plugins/dist.js:78-93 | If nothing throws, the schema pass writes exactly twice as many assets as there are files |
| Dist.YuzuDist.SchemaRunPair | plugins/dist.js:78-93 | If nothing throws, writes `2k` and `2k+1` are file `k`'s schema and meta assets |
| Dist.YuzuDist.SchemaRunLast | plugins/dist.js:78-93 | If nothing throws, the pass over a list is the pass over all but the last file, followed by the last file's two writes |
| Dist.EachFile | plugins/dist.js:99-104 | Definition of a pass with one write per file: the writes over all but the last file, then the last file's write |
| Dist.EachFileAt | plugins/dist.js:96-116 | A one-asset-per-file pass writes exactly one asset per file, and write `k` is file `k`'s |
| Dist.YuzuDist.HbsRunCopies | plugins/dist.js:96-105 | The hbs pass writes each file's contents verbatim, in order, at `root/src/<type>/<name>` |
| Dist.YuzuDist.MarkupRunCopies | plugins/dist.js:107-116 | The markup pass writes each file's contents verbatim, in order, at `root/markup$/<type>/<name>` |
| Dist.YuzuDist.BuildIsOneSequence | plugins/dist.js:129-145 | One emit is a single sequence of writes (data, schema, then hbs and markup unless the schema pass threw), applied to the assets already present |
| Dist.YuzuDist.BuildIdempotent | plugins/dist.js:129-145 | A second emit over unchanged sources gives the same assets and the same outcome |
| Dist.YuzuDist.BuildKeepsOtherAssets | plugins/dist.js:118-145 | Every write lands under `outputFolderRoot + "/"`, so assets elsewhere are neither added, removed nor changed |
| Dist.YuzuDist.BuildEmissionsUnderRoot | plugins/dist.js:61-116 | Every path an emit writes starts with `outputFolderRoot + "/"` |
| Dist.YuzuDist.DataRunUnderRoot | plugins/dist.js:69 | Every data path starts with `outputFolderRoot + "/"` |
| Dist.YuzuDist.SchemaRunUnderRoot | plugins/dist.js:87-91 | Every schema and meta path starts with `outputFolderRoot + "/"` |
| Dist.YuzuDist.SchemaEntriesUnderRoot | plugins/dist.js:87-91 | Both writes of one schema file start with `outputFolderRoot + "/"` |
| Dist.YuzuDist.HbsRunUnderRoot | plugins/dist.js:102 | Every src path starts with `outputFolderRoot + "/"` |
| Dist.YuzuDist.MarkupRunUnderRoot | plugins/dist.js:113 | Every markup path starts with `outputFolderRoot + "/"` |
| Dist.YuzuDist.EmitFile | plugins/dist.js:118-127 | `emitFile` sets only its key, overwriting any asset there; the stored source is the output and `size()` is its UTF-16 length |
| Dist.YuzuDist.AddData | plugins/dist.js:61-73 | The loop leaves the assets as the data run's writes applied in order to the old assets |
| Dist.YuzuDist.AddSchema | plugins/dist.js:75-94 | The loop leaves the assets as the schema run's writes applied in order, and reports the TypeError that stopped it, if any |
| Dist.YuzuDist.AddSchemaFile | plugins/dist.js:78-93 | One iteration of the schema loop throws exactly when the file's patch throws, leaving the assets unchanged; otherwise it applies the file's schema and meta writes |
| Dist.YuzuDist.AddHbs | plugins/dist.js:96-105 | The loop leaves the assets as the hbs run's writes applied in order |
| Dist.YuzuDist.AddMarkup | plugins/dist.js:107-116 | The loop leaves the assets as the markup run's writes applied in order |
| Dist.YuzuDist.Apply | plugins/dist.js:129-145 | One `setup`, then data, schema, hbs and markup in that order: the new assets and the outcome are `Build` of the old assets |
| TemplatePaths.MergeTemplatePathsOptions | plugins/template-paths.js:4-14 | Each supplied key replaces its default; the others are `_templates`, `_client/templatePaths.json` and `yuzu.html` |
| TemplatePaths.YuzuTemplatePaths.constructor | plugins/template-paths.js:11-14 | The options are the merge of the caller's options over the defaults |
| TemplatePaths.IsTemplateData | plugins/template-paths.js:21 | Definition of the filter's test: the path contains the templates folder name and its `extname` is `.json` |
| TemplatePaths.TemplateDataByName | plugins/template-paths.js:21 | A dependency passes exactly when it contains the folder name and its last segment ends in `.json` after at least one other character, so `x.json.bak` and a bare `.json` fail |
| TemplatePaths.SelectDependencies | plugins/template-paths.js:20-22 | A path is kept exactly when it is a dependency that passes the test, and the result is no longer than the input |
| JsArrays.Filter | plugins/template-paths.js:20-22 | `filter` keeps exactly the elements that pass the callback and is no longer than the input |
| JsArrays.KeptIndices | plugins/template-paths.js:20-22 | Every kept position is a position of the input |
| JsArrays.KeptIndicesIncreasing | plugins/template-paths.js:20-22 | The kept positions are strictly increasing |
| JsArrays.KeptIndicesExact | plugins/template-paths.js:20-22 | A position is kept exactly when its element passes the callback |
| JsArrays.FilterFollowsIndices | plugins/template-paths.js:20-22 | The filtered list is the subsequence of the input at the kept positions, in the original order |
| JsArrays.FilterAt | plugins/template-paths.js:20-22 | Kept element `i` is the input element at kept position `i` |
| JsArrays.FilterAppend | plugins/template-paths.js:20-22 | Filtering a concatenation is concatenating the filtered parts |
| JsArrays.FilterIdempotent | plugins/template-paths.js:20-22 | Filtering the filtered list changes nothing |
| TemplatePaths.YuzuTemplatePaths.Output | plugins/template-paths.js:24-25 | Definition: the serialised previews of the selected dependencies for `rootPath` |
| TemplatePaths.YuzuTemplatePaths.Apply | plugins/template-paths.js:16-38 | Exactly one asset is written, at `outputPath`, replacing any there. It holds the serialised previews of the filtered dependencies for `rootPath`, and its size is the UTF-16 length of that output; every other asset is unchanged |
| Webpack.Asset.Size | plugins/dist.js:123-125 | Definition: `size()` is the UTF-16 length of the stored text |
| Webpack.EmitAll | plugins/dist.js:118-127 | Definition: the asset table after a sequence of `emitFile` writes, applied in order, each replacing what is at its path |
| Webpack.EmitAllExtend | plugins/dist.js:118-127 | One more write is one map update |
| Webpack.EmitAllAppend | plugins/dist.js:118-127 | Writing `a` then `b` is writing `a + b` |
| Webpack.EmitAllLastWriteWins | plugins/dist.js:118-127 | A path holds the asset of its last write |
| Webpack.EmitAllUntouched | plugins/dist.js:118-127 | After a sequence of writes the paths are the old ones plus the written ones, and unwritten paths keep their assets |
| Webpack.EmitAllWrittenIgnoresBefore | plugins/dist.js:118-127 | What is at a written path does not depend on the table before |
| Webpack.EmitAllTwice | plugins/dist.js:118-127 | Repeating a sequence of writes changes nothing |
| JsStrings.IndexOf | plugins/template-paths.js:21 | `indexOf`: the first position where the pattern occurs, or none when it occurs nowhere |
| JsStrings.Includes | plugins/template-paths.js:21 | Definition: `includes` holds exactly when `indexOf` finds the pattern |
| JsStrings.ReplaceFirst | plugins/dist.js:90-91 | Definition: `replace` with a string pattern replaces the first occurrence only, and leaves the string unchanged when the pattern does not occur |
| JsStrings.ReplaceFirstOfPrefix | plugins/dist.js:90 | Replacing a prefix pattern leaves the replacement followed by the rest |
| JsStrings.ReplaceFirstOfSuffix | plugins/dist.js:91 | If the pattern first occurs as the suffix, only the suffix is replaced |
| JsStrings.ReplaceFirstChanges | plugins/dist.js:91 | With a replacement of different length, `replace` changes the string exactly when the pattern occurs |
| JsStrings.Split | plugins/dist.js:48 | `split` gives at least one segment, and no segment contains the separator |
| JsStrings.JoinSplit | plugins/dist.js:48 | Joining the segments with the separator gives back the string |
| JsStrings.SplitAround | plugins/dist.js:48 | Splitting at a separator splits the two sides independently |
| JsStrings.SplitWithoutSeparator | plugins/dist.js:48 | A string without the separator splits into itself |
| JsStrings.SplitJoin | plugins/dist.js:48 | Separator-free parts are recovered by splitting their join |
| JsStrings.Utf16Length | plugins/dist.js:124 | `.length` is between the character count and twice it, and zero only for the empty string |
| JsStrings.Utf16LengthIsCount | plugins/dist.js:124 | `.length` equals the character count exactly when every character is in the Basic Multilingual Plane |
| NodePath.StripTrailingSlashes | plugins/dist.js:56 | The trailing `/` characters are removed, and only those |
| NodePath.Basename | plugins/dist.js:56 | The basename has no `/` and is no longer than the path |
| NodePath.BasenameOfChild | plugins/dist.js:56 | The basename of `dir/name` is `name` when `name` is non-empty and has no `/` |
| NodePath.BasenameIdempotent | plugins/dist.js:69 | Taking the basename of a basename changes nothing, so `path.basename(file.name)` is `file.name` |
| NodePath.LastIndexOf | plugins/template-paths.js:21 | The last position of a character, or none when the character is absent |
| NodePath.Extname | plugins/template-paths.js:21 | The extension is empty or a `.` followed by a dot-free text |
| NodePath.ExtnameIsJson | plugins/template-paths.js:21 | `extname` is `.json` exactly when the basename ends in `.json` and is longer than `.json` |
| Json.Truthy | plugins/dist.js:82 | Definition: JavaScript truthiness; `undefined`, `null`, `false`, `0` and `""` are falsy, everything else truthy |
| Json.LooselyEqualsObjectText | plugins/dist.js:82 | Definition: `value == "object"` holds for the string `object` and for arrays of exactly one element that loosely equals it, and for nothing else |
| Json.ToPrimitiveThrows | plugins/dist.js:82 | Definition: converting a JSON value to a primitive throws exactly for an object with its own `toString` member and for an array with such a value among its items, at any depth |
| Json.LooseEqualityThrows | plugins/dist.js:82 | Definition: `value == "object"` throws exactly when the value is present and cannot be converted to a primitive |
| Json.ObjectTextDoesNotThrow | plugins/dist.js:82 | A value loosely equal to `"object"` converts without throwing |
| Json.LookupPair | plugins/dist.js:82 | Both members of a two-member object with distinct keys read back |
| Json.LooseEqualityOutcome | plugins/dist.js:82 | `value == "object"` never both holds and throws |
| Json.Get | plugins/dist.js:82 | Definition: `value[key]` is the object's first member named `key`, and `undefined` for a missing key or a non-object |
| Json.Keys | plugins/dist.js:83-84 | The keys of an object, in member order |
| Json.Lookup | plugins/dist.js:82 | A key is found exactly when it is among the object's keys |
| Json.Put | plugins/dist.js:83-84 | Assigning a property makes it read back as the value and leaves every other property as it was |
| Json.PutKeys | plugins/dist.js:83-84 | Assigning an existing key keeps the key order; a new key is appended |
| Json.PutUnchanged | plugins/dist.js:83-84 | Assigning a property its current value leaves the object unchanged |

## Left out

- File reads and glob enumeration (`fs.readFileSync`, `glob.sync`) are the fields of a `FileSystem` value. The read errors they can raise are not modelled.
- The `yuzu-definition-core` functions `resolveDataString`, `resolveSchema`, `resolvePaths` and `getPreviews` are the four fields of a `Resolver` value. Their code is not part of this model. `setup` is the module function `YuzuCore.Setup`, which builds a record of its three arguments.
- The `Resolver` fields and `stringify` are total functions, so the exceptions `resolveDataString`, `resolveSchema`, `resolvePaths`, `getPreviews` and `JSON.stringify` can raise are not modelled. In particular a `resolvePaths` throw at `plugins/dist.js:90` would leave a schema asset without its meta asset, and the model has no such state.
- SchemaAugmenter.Augment builds a new JSON value instead of mutating the object `resolveSchema` returned (`plugins/dist.js:83-84`). Any sharing between that object and other data of the resolver is not modelled.
- `Sources` requires all seven fields. In JavaScript a caller's partial `sources` object leaves the missing fields `undefined`: `glob.sync(undefined)` then throws (`plugins/dist.js:76`), and `replace(undefined, '')` at `plugins/dist.js:90` removes the text `undefined`. Neither is modelled.
- `JSON.stringify(value, null, 4)` is an abstract function from JSON values to strings. Its text layout is not modelled.
- The webpack hook machinery is not modelled: `compiler.hooks.emit.tapAsync` and the `callback()` call. `Apply` is the body of the emit callback.
- Dist.MergeDistOptions: `Object.assign` writes into the module-level defaults object, so a second plugin instance would start from the first one's options. The merge is modelled as a fresh value.
- TemplatePaths.MergeTemplatePathsOptions: `Object.assign` writes into the module-level defaults object, so a second plugin instance would start from the first one's options. The merge is modelled as a fresh value.
- A caller's key given explicitly as `undefined` overrides the default in JavaScript. The model treats it the same as a missing key.
- `schema.type == "object"` is modelled for JSON values only: strings, numbers, booleans, `null`, arrays and objects. A value with a callable `toString` or `valueOf`, which JSON cannot hold, is not modelled.
- JSON numbers are integers. Floating-point values do not affect any path or patch.
- `replace` with a string pattern is modelled literally. The `$`-patterns in a replacement string do not arise, because the replacements are `''` and `'.meta'`.
- Only POSIX paths are modelled. Windows separators are not handled.
- The order of keys in the `compilation.assets` object is not modelled. Assets are a map.
- The filter reads `compilation.fileDependencies` as the sequence `Array.from` produces. The set it comes from is not modelled.
- SchemaAugmenter.Augment: a `properties` array takes the two assignments as named properties that `JSON.stringify` never prints. The model therefore leaves the array unchanged.
