/**
  The tool registry and the `Read` tool (src/tools.rs).

  The file src/tools.rs as it stands declares a single-variant `ToolName` (`Read`,
  spelled "Read") and only the `Read` tool, while src/conversation.rs dispatches over
  three variants (`Bash`, `ReadFile`, `WriteFile`, parsed by a derived `FromStr`) and
  calls `run_bash`, `write_file`, `call_run_bash` and `call_write_file`, none of which
  is shown. This model keeps the three variants, gives the read variant the shown
  spelling and executor, and takes the spelling, definition and executor of the
  other two as parameters (`OtherTools`) instead of inventing them.
 */
module Tools {
  import opened Wrappers
  import opened Json

  /** What the file system holds at a path. A regular file's read may fail
      (bad encoding, an OS error); that outcome is part of the entry. */
  datatype Entry = RegularFile(contents: Result<string, string>) | Directory | Special

  /** Paths that exist, with what they name. A path not in the map does not exist. */
  type FileSystem = map<string, Entry>

  /** What running a tool yields: its textual result and the file system after it. */
  datatype Effect = Effect(result: Result<string, string>, fs: FileSystem)

  /** The shell and file-writing tools: their spelling, their advertised
      definition and their executor, none of which is part of this model. */
  datatype OtherTools = OtherTools(
    bashName: string,
    bashDefinition: Value,
    runBash: (Value, FileSystem) -> Effect,
    writeName: string,
    writeDefinition: Value,
    writeFile: (Value, FileSystem) -> Effect)

  datatype ToolName = Bash | ReadFile | WriteFile

  const ReadName: string := "Read"

  /** `ToolName::as_str`. */
  function Name(t: ToolName, others: OtherTools): string {
    match t
    case Bash => others.bashName
    case ReadFile => ReadName
    case WriteFile => others.writeName
  }

  /** The three spellings are pairwise different, as the derived parser needs. */
  predicate DistinctNames(others: OtherTools) {
    others.bashName != ReadName && others.writeName != ReadName && others.bashName != others.writeName
  }

  /** `ToolName::from_str` (and `str::parse::<ToolName>`, with `Err` as `None`):
      exact, case-sensitive comparison against each spelling. */
  function ParseName(s: string, others: OtherTools): (r: Option<ToolName>)
    ensures r == Some(ReadFile) <==> s == ReadName
    ensures r.Some? ==> Name(r.value, others) == s
    ensures r.None? <==> s != ReadName && s != others.bashName && s != others.writeName
  {
    if s == ReadName then Some(ReadFile)
    else if s == others.bashName then Some(Bash)
    else if s == others.writeName then Some(WriteFile)
    else None
  }

  /** Parsing a tool's own spelling gives back that tool. */
  lemma ParseNameRoundTrip(t: ToolName, others: OtherTools)
    requires DistinctNames(others)
    ensures ParseName(Name(t, others), others) == Some(t)
  {
  }

  /** `definition["function"]["name"].as_str()` of an advertised tool. */
  function DefinedName(definition: Value): Option<string> {
    AsStr(Get(Get(definition, "function"), "name"))
  }

  function Parameters(definition: Value): Value {
    Get(Get(definition, "function"), "parameters")
  }

  /** `Tool::read_file().definition`: a function tool named after `ToolName::Read`
      whose one parameter, `file_path`, is a required string. */
  function ReadDefinition(): (d: Value)
    ensures Get(d, "type") == Str("function")
    ensures DefinedName(d) == Some(ReadName)
    ensures Get(Parameters(d), "type") == Str("object")
    ensures Get(Parameters(d), "required") == Array([Str("file_path")])
    ensures Get(Parameters(d), "properties").Object?
    ensures Get(Parameters(d), "properties").fields.Keys == {"file_path"}
    ensures Get(Get(Get(Parameters(d), "properties"), "file_path"), "type") == Str("string")
  {
    Object(map[
      "type" := Str("function"),
      "function" := Object(map[
        "name" := Str(ReadName),
        "description" := Str("Read and return the contents of a file"),
        "parameters" := Object(map[
          "type" := Str("object"),
          "properties" := Object(map[
            "file_path" := Object(map[
              "type" := Str("string"),
              "description" := Str("The path to the file to read")])]),
          "required" := Array([Str("file_path")])])])])
  }

  /** The advertised name of the read tool is the read variant's own spelling. */
  lemma ReadDefinitionNamesReadTool(others: OtherTools)
    ensures DefinedName(ReadDefinition()) == Some(Name(ReadFile, others))
    ensures ParseName(DefinedName(ReadDefinition()).value, others) == Some(ReadFile)
  {
  }

  /** The text after the last '/' of a path (all of it when there is none): the longest
      suffix without a separator. */
  function LastComponent(path: string): (c: string)
    ensures '/' !in c
    ensures |c| <= |path| && c == path[|path| - |c|..]
    ensures |c| == |path| || path[|path| - |c| - 1] == '/'
    decreases |path|
  {
    if path == [] || path[|path| - 1] == '/' then []
    else LastComponent(path[..|path| - 1]) + [path[|path| - 1]]
  }

  /** `Path::file_name`: the last component, absent when it is empty or a dot entry. */
  function FileName(path: string): (r: Option<string>)
    ensures r.None? <==> LastComponent(path) in {"", ".", ".."}
    ensures r.Some? ==> r.value == LastComponent(path)
    ensures r.Some? ==> '/' !in r.value && r.value != "" && r.value != "." && r.value != ".."
  {
    var c := LastComponent(path);
    if c == "" || c == "." || c == ".." then None else Some(c)
  }

  /** A name without separators is its own last component. */
  lemma {:induction false} LastComponentOfPlainName(name: string)
    requires '/' !in name
    ensures LastComponent(name) == name
    decreases |name|
  {
    if name != [] {
      var init := name[..|name| - 1];
      LastComponentOfPlainName(init);
      assert init + [name[|name| - 1]] == name;
    }
  }

  /** A name without separators, put after a directory, is the path's last component. */
  lemma {:induction false} LastComponentOfJoin(dir: string, name: string)
    requires '/' !in name
    ensures LastComponent(dir + "/" + name) == name
    decreases |name|
  {
    if name != [] {
      var init := name[..|name| - 1];
      assert (dir + "/" + name)[..|dir + "/" + name| - 1] == dir + "/" + init;
      LastComponentOfJoin(dir, init);
      assert init + [name[|name| - 1]] == name;
    } else {
      assert dir + "/" + name == dir + "/";
    }
  }

  /** `args["file_path"].as_str()`. */
  function FilePathArgument(args: Value): Option<string> {
    AsStr(Get(args, "file_path"))
  }

  const MissingFilePath: string := "Missing file_path argument"
  const EnvForbidden: string := "Access to .env file is forbidden"

  /** `Tool::call_read_file`: the argument, then existence, then regular file,
      then the `.env` deny-check, then the read. The first failing step decides. */
  function CallReadFile(args: Value, fs: FileSystem): (r: Result<string, string>)
    ensures r.Ok? <==>
      && FilePathArgument(args).Some?
      && FilePathArgument(args).value in fs
      && fs[FilePathArgument(args).value].RegularFile?
      && FileName(FilePathArgument(args).value) != Some(".env")
      && fs[FilePathArgument(args).value].contents.Ok?
    ensures
      && FilePathArgument(args).Some?
      && FilePathArgument(args).value in fs
      && fs[FilePathArgument(args).value].RegularFile?
      && FileName(FilePathArgument(args).value) != Some(".env")
      ==> r == fs[FilePathArgument(args).value].contents
  {
    match FilePathArgument(args)
    case None => Err(MissingFilePath)
    case Some(path) =>
      if path !in fs then Err("File not found: " + path)
      else if !fs[path].RegularFile? then Err("Path is not a file: " + path)
      else if FileName(path) == Some(".env") then Err(EnvForbidden)
      else fs[path].contents
  }

  /** Without a string `file_path` the answer is the same whatever the file system holds. */
  lemma MissingArgumentIgnoresFileSystem(args: Value, fs: FileSystem, fs': FileSystem)
    requires FilePathArgument(args).None?
    ensures CallReadFile(args, fs) == CallReadFile(args, fs') == Err(MissingFilePath)
  {
  }

  /** A path that does not exist is reported as not found, whatever its name. */
  lemma MissingPathNotFound(args: Value, fs: FileSystem)
    requires FilePathArgument(args).Some? && FilePathArgument(args).value !in fs
    ensures CallReadFile(args, fs) == Err("File not found: " + FilePathArgument(args).value)
  {
  }

  /** In particular a missing `.env` is "not found", not "forbidden". */
  lemma MissingEnvIsNotFound(args: Value, dir: string, fs: FileSystem)
    requires FilePathArgument(args) == Some(dir + "/.env")
    requires dir + "/.env" !in fs
    ensures CallReadFile(args, fs) == Err("File not found: " + (dir + "/.env"))
  {
  }

  /** A directory or special file is refused before its name is looked at. */
  lemma NonFileRefused(args: Value, fs: FileSystem)
    requires FilePathArgument(args).Some? && FilePathArgument(args).value in fs
    requires !fs[FilePathArgument(args).value].RegularFile?
    ensures CallReadFile(args, fs) == Err("Path is not a file: " + FilePathArgument(args).value)
  {
  }

  /** A regular file whose name is `.env` is refused, whatever its contents and
      whatever else the arguments carry besides `file_path`. */
  lemma EnvFileRefused(args: Value, path: string, fs: FileSystem)
    requires FilePathArgument(args) == Some(path)
    requires path in fs && fs[path].RegularFile? && FileName(path) == Some(".env")
    ensures CallReadFile(args, fs) == Err(EnvForbidden)
  {
  }

  /** So `.env` in the working directory is refused ... */
  lemma EnvForbiddenInWorkingDirectory(args: Value, fs: FileSystem)
    requires FilePathArgument(args) == Some(".env")
    requires ".env" in fs && fs[".env"].RegularFile?
    ensures FileName(".env") == Some(".env")
    ensures CallReadFile(args, fs) == Err(EnvForbidden)
  {
    LastComponentOfPlainName(".env");
    EnvFileRefused(args, ".env", fs);
  }

  /** ... and so is `.env` in every other directory. */
  lemma EnvForbiddenInAnyDirectory(args: Value, dir: string, fs: FileSystem)
    requires FilePathArgument(args) == Some(dir + "/.env")
    requires dir + "/.env" in fs && fs[dir + "/.env"].RegularFile?
    ensures FileName(dir + "/.env") == Some(".env")
    ensures CallReadFile(args, fs) == Err(EnvForbidden)
  {
    LastComponentOfJoin(dir, ".env");
    assert dir + "/" + ".env" == dir + "/.env";
    EnvFileRefused(args, dir + "/.env", fs);
  }

  /** Names that merely contain `.env` are read like any other file. */
  lemma NearEnvNamesReadable(args: Value, dir: string, name: string, fs: FileSystem)
    requires name == ".env.local" || name == "a.env" || name == ".envrc"
    requires FilePathArgument(args) == Some(dir + "/" + name)
    requires dir + "/" + name in fs && fs[dir + "/" + name].RegularFile?
    ensures CallReadFile(args, fs) == fs[dir + "/" + name].contents
  {
    LastComponentOfJoin(dir, name);
  }
}
