/**
 * The collaborators the plugins call but do not define: the build functions
 * of the template resolver library, the glob and file reads of the file
 * system. Each is a total function supplied from outside, so the model
 * assumes nothing about what it computes.
 */
module YuzuCore {
  import opened Json

  /** One reserved schema property handed to the resolver's setup. */
  datatype AutoSchemaProperty = AutoSchemaProperty(name: string, schema: Json)

  /**
   * The shared context the resolver's setup builds once per emit: it is
   * determined by the three setup arguments, so the model keeps exactly those.
   */
  datatype Externals = Externals(
    renderedPartialDirectories: seq<string>,
    layoutsDirectory: string,
    autoSchemaProperties: seq<AutoSchemaProperty>)

  /** `build.setup(partialDirectories, layoutsDirectory, autoSchemaProperties)`. */
  function Setup(renderedPartialDirectories: seq<string>, layoutsDirectory: string,
                 autoSchemaProperties: seq<AutoSchemaProperty>): Externals
  {
    Externals(renderedPartialDirectories, layoutsDirectory, autoSchemaProperties)
  }

  /** The resolver's build functions. */
  datatype Resolver = Resolver(
    resolveDataString: (string, string, Externals, seq<string>) -> Json,
    resolveSchema: (string, Externals) -> Json,
    resolvePaths: (string, Externals, string) -> Json,
    getPreviews: (seq<string>, string) -> Json)

  /** `glob.sync(pattern)` and `fs.readFileSync(path, 'utf8')`. */
  datatype FileSystem = FileSystem(
    glob: string -> seq<string>,
    readFile: string -> string)
}
