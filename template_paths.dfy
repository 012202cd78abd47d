/**
 * YuzuTemplatePaths: on every emit it picks the template data files out of the
 * compilation's file dependencies, asks the definition core for their previews
 * and stores the serialised previews as one asset.
 */
module TemplatePaths {
  import opened Wrappers
  import opened JsStrings
  import opened NodePath
  import opened Json
  import opened Webpack
  import opened YuzuCore
  import opened JsArrays

  datatype TemplatePathsOptions = TemplatePathsOptions(
    templatesFolderName: string,
    outputPath: string,
    rootPath: string)

  /** The keys a caller may pass to the constructor; `None` for a key left out. */
  datatype TemplatePathsUserOptions = TemplatePathsUserOptions(
    templatesFolderName: Option<string>,
    outputPath: Option<string>,
    rootPath: Option<string>)

  const DefaultTemplatePathsOptions := TemplatePathsOptions("_templates", "_client/templatePaths.json", "yuzu.html")

  /** `Object.assign(defaultOptions, options || {})`: every supplied key wins, the others keep their default. */
  function MergeTemplatePathsOptions(user: TemplatePathsUserOptions): (o: TemplatePathsOptions)
    ensures user.templatesFolderName.Some? ==> o.templatesFolderName == user.templatesFolderName.value
    ensures user.templatesFolderName.None? ==> o.templatesFolderName == "_templates"
    ensures user.outputPath.Some? ==> o.outputPath == user.outputPath.value
    ensures user.outputPath.None? ==> o.outputPath == "_client/templatePaths.json"
    ensures user.rootPath.Some? ==> o.rootPath == user.rootPath.value
    ensures user.rootPath.None? ==> o.rootPath == "yuzu.html"
  {
    TemplatePathsOptions(
      user.templatesFolderName.GetOr(DefaultTemplatePathsOptions.templatesFolderName),
      user.outputPath.GetOr(DefaultTemplatePathsOptions.outputPath),
      user.rootPath.GetOr(DefaultTemplatePathsOptions.rootPath))
  }

  /** The filter's test: the path contains the templates folder name and `path.extname` is `.json`. */
  predicate IsTemplateData(item: string, folder: string) {
    Includes(item, folder) && Extname(item) == ".json"
  }

  /**
   * In terms of the file name: kept paths contain the folder name and their
   * last segment ends in `.json` after at least one other character, so
   * `x.json.bak` and a bare `.json` are both dropped.
   */
  lemma TemplateDataByName(item: string, folder: string)
    ensures IsTemplateData(item, folder) <==>
      && Includes(item, folder)
      && EndsWith(Basename(item), ".json")
      && |Basename(item)| > 5
  {
    ExtnameIsJson(item);
    assert IsTemplateData(item, folder) == (Includes(item, folder) && Extname(item) == ".json");
  }

  /** The filter's callback, `(item) => ...`, for one folder name. */
  function TemplateDataTest(folder: string): string -> bool {
    item => IsTemplateData(item, folder)
  }

  /** `fileDependencies.filter(...)`: the template data files, in dependency order. */
  function SelectDependencies(deps: seq<string>, folder: string): (kept: seq<string>)
    ensures |kept| <= |deps|
    ensures forall x :: x in kept <==> x in deps && IsTemplateData(x, folder)
  {
    Filter(TemplateDataTest(folder), deps)
  }

  class YuzuTemplatePaths {
    const options: TemplatePathsOptions
    const core: Resolver
    /** `JSON.stringify(value, null, 4)`. */
    const stringify: Json -> string

    constructor (userOptions: TemplatePathsUserOptions, core: Resolver, stringify: Json -> string)
      ensures options == MergeTemplatePathsOptions(userOptions)
      ensures this.core == core && this.stringify == stringify
    {
      options := MergeTemplatePathsOptions(userOptions);
      this.core := core;
      this.stringify := stringify;
    }

    /** The serialised previews of the template data files among `deps`. */
    function Output(deps: seq<string>): string {
      stringify(core.getPreviews(SelectDependencies(deps, options.templatesFolderName), options.rootPath))
    }

    /**
     * The emit hook: one asset at `outputPath` holding the previews of the
     * selected dependencies; every other asset stays as it was, and an asset
     * already at `outputPath` is replaced.
     */
    method Apply(compilation: Compilation)
      modifies compilation`assets
      ensures compilation.assets == old(compilation.assets)[options.outputPath := Asset(Output(compilation.fileDependencies))]
      ensures compilation.assets.Keys == old(compilation.assets).Keys + {options.outputPath}
      ensures forall k :: k in old(compilation.assets) && k != options.outputPath ==>
        compilation.assets[k] == old(compilation.assets)[k]
      ensures compilation.assets[options.outputPath].Size() == Utf16Length(Output(compilation.fileDependencies))
    {
      var dependencies := SelectDependencies(compilation.fileDependencies, options.templatesFolderName);
      var previews := core.getPreviews(dependencies, options.rootPath);
      var output := stringify(previews);
      compilation.assets := compilation.assets[options.outputPath := Asset(output)];
    }
  }
}
