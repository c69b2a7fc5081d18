/**
  The conversation state (src/conversation.rs): an append-only message log and the
  fixed catalogue of tool definitions, and the handling of one tool call requested
  by the model. The pure steps (reading the call's fields, dispatching by name) are
  functions; `Manager` is the object whose log is pushed to in place.
 */
module Conversation {
  import opened Wrappers
  import opened Json
  import opened Tools

  /** `serde_json::from_str`: decodes a JSON text, or says why it cannot. */
  type Parser = string -> Result<Value, string>

  function Role(message: Value): Option<string> {
    AsStr(Get(message, "role"))
  }

  /** The opening message `{ "role": "user", "content": prompt }`. */
  function UserMessage(prompt: string): (m: Value)
    ensures Role(m) == Some("user")
    ensures Get(m, "content") == Str(prompt)
    ensures m.Object? && m.fields.Keys == {"role", "content"}
  {
    Object(map["role" := Str("user"), "content" := Str(prompt)])
  }

  /** The answer to one tool call: `{ "role": "tool", "tool_call_id": id, "content": content }`. */
  function ToolMessage(id: string, content: string): (m: Value)
    ensures Role(m) == Some("tool")
    ensures Get(m, "tool_call_id") == Str(id)
    ensures Get(m, "content") == Str(content)
    ensures m.Object? && m.fields.Keys == {"role", "tool_call_id", "content"}
  {
    Object(map["role" := Str("tool"), "tool_call_id" := Str(id), "content" := Str(content)])
  }

  /** The tool definitions `Manager::new` offers, in its order: bash, read, write. */
  function Catalogue(others: OtherTools): seq<Value> {
    [others.bashDefinition, ReadDefinition(), others.writeDefinition]
  }

  /** The names a catalogue offers: each definition's `function.name`, where it is a string. */
  function OfferedNames(tools: seq<Value>): (names: seq<string>)
    ensures forall n :: n in names <==> exists i :: 0 <= i < |tools| && DefinedName(tools[i]) == Some(n)
    ensures |names| <= |tools|
  {
    if tools == [] then []
    else
      var rest := OfferedNames(tools[1..]);
      assert forall i :: 0 < i < |tools| ==> tools[i] == tools[1..][i - 1];
      match DefinedName(tools[0])
      case Some(n) => [n] + rest
      case None => rest
  }

  /** The unseen tools advertise themselves under the names they are parsed by. */
  predicate AdvertisesOwnNames(others: OtherTools) {
    DefinedName(others.bashDefinition) == Some(others.bashName)
    && DefinedName(others.writeDefinition) == Some(others.writeName)
  }

  /** The catalogue names bash, read and write, in that order, so every tool is offered. */
  lemma CatalogueOffersEveryTool(others: OtherTools)
    requires AdvertisesOwnNames(others)
    ensures OfferedNames(Catalogue(others)) == [others.bashName, ReadName, others.writeName]
    ensures forall t: ToolName :: Name(t, others) in OfferedNames(Catalogue(others))
  {
    OfferedNamesOfThree(others.bashDefinition, ReadDefinition(), others.writeDefinition);
  }

  /** Three definitions that each carry a name offer those names, in order. */
  lemma OfferedNamesOfThree(a: Value, b: Value, c: Value)
    requires DefinedName(a).Some? && DefinedName(b).Some? && DefinedName(c).Some?
    ensures OfferedNames([a, b, c]) == [DefinedName(a).value, DefinedName(b).value, DefinedName(c).value]
  {
    assert OfferedNames([c]) == [DefinedName(c).value] by {
      assert [c][1..] == [];
    }
    assert OfferedNames([b, c]) == [DefinedName(b).value, DefinedName(c).value] by {
      assert [b, c][1..] == [c];
    }
    assert [a, b, c][1..] == [b, c];
  }

  /** `tool_call["function"]["name"]`, or "" when absent or not a string. */
  function CallName(call: Value): string {
    AsStr(Get(Get(call, "function"), "name")).UnwrapOr("")
  }

  /** `tool_call["function"]["arguments"]`, or "{}" when absent or not a string. */
  function CallArguments(call: Value): string {
    AsStr(Get(Get(call, "function"), "arguments")).UnwrapOr("{}")
  }

  /** `tool_call["id"]`, or "" when absent or not a string. */
  function CallId(call: Value): string {
    AsStr(Get(call, "id")).UnwrapOr("")
  }

  /** `result.unwrap_or_else(|e| e)`: success and failure become plain text alike. */
  function Text(result: Result<string, string>): string {
    match result
    case Ok(t) => t
    case Err(e) => e
  }

  /** Each tool's own executor. */
  function Execute(t: ToolName, args: Value, fs: FileSystem, others: OtherTools): Effect {
    match t
    case Bash => others.runBash(args, fs)
    case ReadFile => Effect(CallReadFile(args, fs), fs)
    case WriteFile => others.writeFile(args, fs)
  }

  /** The `match name.parse::<ToolName>()` of `handle_tool_call`. An unknown name
      is answered with an error text and leaves the file system as it was. */
  function Dispatch(name: string, args: Value, fs: FileSystem, others: OtherTools): (e: Effect)
    ensures ParseName(name, others).None? ==> e == Effect(Err("Tool " + name + " not found"), fs)
    ensures ParseName(name, others).Some? ==> e == Execute(ParseName(name, others).value, args, fs, others)
  {
    match ParseName(name, others)
    case Some(t) => Execute(t, args, fs, others)
    case None => Effect(Err("Tool " + name + " not found"), fs)
  }

  /** A tool's own name reaches exactly that tool's executor, with the arguments given. */
  lemma DispatchRunsOwnExecutor(t: ToolName, args: Value, fs: FileSystem, others: OtherTools)
    requires DistinctNames(others)
    ensures Dispatch(Name(t, others), args, fs, others) == Execute(t, args, fs, others)
  {
  }

  /** What handling one call comes to: the tool message to append and the file
      system after the tool ran, or the decoder's error. */
  datatype Handling = Answered(message: Value, fs: FileSystem) | Undecodable(error: string)

  /** `handle_tool_call` on values: the arguments are decoded first; when that fails
      nothing else happens; otherwise the call is dispatched and its text, success
      or failure, becomes one tool message carrying the call's id. */
  function HandleCall(call: Value, fs: FileSystem, parse: Parser, others: OtherTools): (h: Handling)
    ensures h.Undecodable? <==> parse(CallArguments(call)).Err?
    ensures h.Undecodable? ==> h.error == parse(CallArguments(call)).error
    ensures h.Answered? ==> Role(h.message) == Some("tool") && Get(h.message, "tool_call_id") == Str(CallId(call))
  {
    match parse(CallArguments(call))
    case Err(e) => Undecodable(e)
    case Ok(args) =>
      var effect := Dispatch(CallName(call), args, fs, others);
      Answered(ToolMessage(CallId(call), Text(effect.result)), effect.fs)
  }

  /** The answer's content is the dispatched tool's text, success or failure alike,
      and the file system is as that tool left it. */
  lemma AnswerCarriesToolText(call: Value, fs: FileSystem, parse: Parser, others: OtherTools)
    requires parse(CallArguments(call)).Ok?
    ensures var effect := Dispatch(CallName(call), parse(CallArguments(call)).value, fs, others);
      && HandleCall(call, fs, parse, others).Answered?
      && Get(HandleCall(call, fs, parse, others).message, "content") == Str(Text(effect.result))
      && HandleCall(call, fs, parse, others).fs == effect.fs
  {
  }

  /** A call with no name is answered "Tool  not found" (the empty name between the
      two spaces), provided no tool is spelled "". */
  lemma NamelessCallNotFound(call: Value, fs: FileSystem, parse: Parser, others: OtherTools)
    requires AsStr(Get(Get(call, "function"), "name")).None?
    requires parse(CallArguments(call)).Ok?
    requires others.bashName != "" && others.writeName != ""
    ensures HandleCall(call, fs, parse, others) == Answered(ToolMessage(CallId(call), "Tool  not found"), fs)
  {
    assert CallName(call) == "";
    assert "Tool " + "" + " not found" == "Tool  not found";
  }

  /** Each field of a call that is missing or not a string takes its default: name "",
      arguments "{}", id "". One that is a string is taken as it is. */
  lemma CallFieldDefaults(call: Value)
    ensures AsStr(Get(Get(call, "function"), "name")).None? ==> CallName(call) == ""
    ensures AsStr(Get(Get(call, "function"), "arguments")).None? ==> CallArguments(call) == "{}"
    ensures AsStr(Get(call, "id")).None? ==> CallId(call) == ""
    ensures Get(Get(call, "function"), "name").Str? ==> CallName(call) == Get(Get(call, "function"), "name").s
    ensures Get(Get(call, "function"), "arguments").Str? ==> CallArguments(call) == Get(Get(call, "function"), "arguments").s
    ensures Get(call, "id").Str? ==> CallId(call) == Get(call, "id").s
  {
  }

  /** An unknown name is answered with "Tool <name> not found" and runs no tool. */
  lemma UnknownToolAnswered(call: Value, fs: FileSystem, parse: Parser, others: OtherTools)
    requires parse(CallArguments(call)).Ok?
    requires ParseName(CallName(call), others).None?
    ensures HandleCall(call, fs, parse, others)
         == Answered(ToolMessage(CallId(call), "Tool " + CallName(call) + " not found"), fs)
  {
  }

  /** A request to read a `.env` file (`.env` itself, or `<dir>/.env`) is answered with
      the refusal; it is not an error of the call itself, so the conversation goes on. */
  lemma EnvReadAnsweredWithRefusal(call: Value, path: string, fs: FileSystem, parse: Parser, others: OtherTools)
    requires CallName(call) == ReadName
    requires parse(CallArguments(call)).Ok? && FilePathArgument(parse(CallArguments(call)).value) == Some(path)
    requires path in fs && fs[path].RegularFile? && FileName(path) == Some(".env")
    ensures HandleCall(call, fs, parse, others) == Answered(ToolMessage(CallId(call), EnvForbidden), fs)
  {
    EnvFileRefused(parse(CallArguments(call)).value, path, fs);
  }

  /** The conversation state: the message log, which only grows at its end, and the
      catalogue of tools offered with every request, which never changes. */
  class Manager {
    var messages: seq<Value>
    var tools: seq<Value>

    /** `Manager::new(prompt)`. */
    constructor (prompt: string, others: OtherTools)
      ensures messages == [UserMessage(prompt)]
      ensures tools == Catalogue(others)
    {
      messages := [UserMessage(prompt)];
      tools := Catalogue(others);
    }

    /** `add_message`: the message goes last; what was there stays, in place. */
    method AddMessage(message: Value)
      modifies this`messages
      ensures messages == old(messages) + [message]
    {
      messages := messages + [message];
    }

    /** `handle_tool_call`: on a decoding failure returns the error and appends
        nothing; otherwise appends exactly the one tool message and returns `Ok`,
        whether the tool itself succeeded or not. */
    method HandleToolCall(call: Value, fs: FileSystem, parse: Parser, others: OtherTools)
      returns (r: Result<(), string>, fs': FileSystem)
      modifies this`messages
      ensures match HandleCall(call, fs, parse, others)
        case Undecodable(e) => r == Err(e) && messages == old(messages) && fs' == fs
        case Answered(m, after) => r == Ok(()) && messages == old(messages) + [m] && fs' == after
    {
      var name := CallName(call);
      var argsText := CallArguments(call);
      var decoded := parse(argsText);
      if decoded.Err? {
        return Err(decoded.error), fs;
      }
      var id := CallId(call);
      var effect := Dispatch(name, decoded.value, fs, others);
      AddMessage(ToolMessage(id, Text(effect.result)));
      r, fs' := Ok(()), effect.fs;
    }
  }
}
