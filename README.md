# Conversation and tool-dispatch engine of a small coding agent, in Dafny

This project models the core of a command-line coding agent written in Rust: the
agent keeps a conversation with a language-model backend, offers it a catalogue of
tools, runs the tools the model asks for, and feeds their results back until the
model answers without asking for a tool.

Four modules, one per concern:

- `Wrappers` (wrappers.dfy): `Option` and `Result`, shaped like Rust's.
- `Json` (json.dfy): the part of `serde_json::Value` the agent uses. It covers the
  JSON tree, indexing by key and by position (absent keys, absent positions and
  wrong shapes yield `Null`), and the `as_str` / `as_array` views.
- `Tools` (tools.dfy, from src/tools.rs, pure): tool names and their parsing, the
  `Read` tool's definition, and the `Read` executor's validation chain over an
  abstract file system. The chain checks the argument, then existence, then that the
  path is a regular file, then the `.env` deny-check, then reads.
- `Conversation` (conversation.dfy, from src/conversation.rs, mixed): the pure part
  of `handle_tool_call` (reading the call's fields, decoding the arguments,
  dispatching by name) as functions. `Manager` is a class whose `messages` log
  only grows at its end.
- `AgentLoop` (agent_loop.dfy, from the loop of src/main.rs, imperative):
  `Loop` describes a whole run as a function of a scripted backend and of the step
  that handles one tool call. `RunLoop` is the loop itself, with the inner `for` over
  the tool calls, proved to end in exactly the state `Loop` describes when that step
  is `handle_tool_call` (`CallHandler`). The lemmas about `Loop` state what a run does
  round by round and over its whole length. They hold for every step that rejects
  exactly the undecodable calls and otherwise answers the call
  (`HandlesLikeManager`), and `CallHandlerBehaves` proves that `handle_tool_call` is
  such a step.

The file system is a map from path to `RegularFile(contents or read error) |
Directory | Special`. `serde_json::from_str` is a parameter `parse: string ->
Result<Value, string>`. The backend is a sequence of replies, each a response body
or a transport error.

### Where the source is inconsistent

src/tools.rs declares a one-variant `ToolName` (`Read`, spelled "Read") with an
inherent `from_str`. It defines only the read tool. src/conversation.rs matches on
`ToolName::Bash`, `ToolName::ReadFile` and `ToolName::WriteFile` through
`str::parse`. It also calls `Tool::run_bash`, `Tool::write_file`,
`Tool::call_run_bash` and `Tool::call_write_file`, and its test iterates over the
variants. None of these appears in src/tools.rs. The model keeps three variants
(`Bash`, `ReadFile`, `WriteFile`) and gives `ReadFile` the shown spelling "Read" and
the shown executor. The spelling, advertised definition and executor of the other
two are fields of the parameter `OtherTools`, so they stay uninterpreted. Results
that need the spellings to differ assume `DistinctNames`. Results that need the
unseen definitions to carry their own names assume `AdvertisesOwnNames`.

### Decoding before lookup, existence before the `.env` check

- `handle_tool_call` decodes the arguments (src/conversation.rs:30) before it looks
  up the name (line 33). A malformed argument string is therefore fatal even for
  an unknown tool name. `HandleCall` states this: it is `Undecodable` exactly when
  decoding fails, whatever the name.
- The `.env` check in `call_read_file` comes after the existence check. A missing
  `.env` is "File not found", not "forbidden" (`MissingEnvIsNotFound`).

## Model

| member | source | states |
|---|---|---|
| `Tools.Name` | src/tools.rs:10-14 | the spelling of each tool variant: "Read" for the read tool, and the `OtherTools` spellings for the two variants whose code is not shown. `ParseNameRoundTrip` is its inverse |
| `Tools.ParseName` | src/tools.rs:16-21 | parsing is exact and case-sensitive. It gives the read tool exactly for "Read", gives `None` exactly for strings that are none of the three spellings, and any tool it gives is spelled as the input |
| `Tools.ParseNameRoundTrip` | src/tools.rs:10-21 | `from_str(as_str(t)) == Some(t)` for every tool, when the spellings differ |
| `Tools.ReadDefinition` | src/tools.rs:30-47 | the read definition is a function tool named "Read". Its parameters form an object whose only property is `file_path`, of type string, and the only required parameter is `file_path` |
| `Tools.ReadDefinitionNamesReadTool` | src/tools.rs:32-33 | the definition's advertised name is `ToolName::Read.as_str()`, and parsing it gives back the read tool |
| `Tools.FileName` | src/tools.rs:62 | the file name of a path is its last component, the longest suffix without a '/'. It is absent exactly when that component is empty, "." or ".." |
| `Tools.LastComponentOfPlainName` | src/tools.rs:62 | a name without separators is its own last component, so the bare path `.env` has file name `.env` |
| `Tools.LastComponentOfJoin` | src/tools.rs:62-63 | the last component of `dir + "/" + name` is `name` when `name` has no separator. So the file name of `<dir>/.env` is `.env` in any directory |
| `Tools.CallReadFile` | src/tools.rs:49-68 | the read succeeds exactly when the argument is a string path that exists, is a regular file, is not named `.env` and can be read. Whenever the four checks pass, the result is exactly the file's read outcome, its contents or the read error's text |
| `Tools.MissingArgumentIgnoresFileSystem` | src/tools.rs:50-51 | a missing or non-string `file_path` gives "Missing file_path argument" whatever the file system holds, so the file system is not consulted |
| `Tools.MissingPathNotFound` | src/tools.rs:54-56 | a path that does not exist gives "File not found: <path>", whatever its name |
| `Tools.MissingEnvIsNotFound` | src/tools.rs:50-66 | a missing `<dir>/.env` gives "File not found", not the `.env` refusal, because existence is checked first, whatever else the arguments carry |
| `Tools.NonFileRefused` | src/tools.rs:57-59 | an existing path that is a directory or special file gives "Path is not a file: <path>" |
| `Tools.EnvFileRefused` | src/tools.rs:50-66 | any arguments whose `file_path` names a regular file with file name `.env` give "Access to .env file is forbidden", whatever the path, the contents and the other keys |
| `Tools.EnvForbiddenInWorkingDirectory` | src/tools.rs:62-66 | the bare path `.env` has file name `.env`, and a read of a regular file there is refused |
| `Tools.EnvForbiddenInAnyDirectory` | src/tools.rs:62-66 | `<dir>/.env` has file name `.env` for any directory, and a read of a regular file there is refused |
| `Tools.NearEnvNamesReadable` | src/tools.rs:62-67 | `.env.local`, `a.env` and `.envrc` are not blocked: the result is the file's read outcome, whatever else the arguments carry |
| `Conversation.UserMessage` | src/conversation.rs:12 | the opening message has exactly the fields `role` = "user" and `content` = the prompt |
| `Conversation.Catalogue` | src/conversation.rs:13-17 | the catalogue `Manager::new` offers: the bash, read and write definitions, in that order. `CatalogueOffersEveryTool` states what it offers |
| `Conversation.OfferedNames` | src/conversation.rs:61-65 | a name is offered exactly when some definition in the catalogue carries it as its string `function.name` |
| `Conversation.CatalogueOffersEveryTool` | src/conversation.rs:13-17 | the catalogue offers bash, read and write in that order. Every tool variant is offered, which is the check of src/conversation.rs:56-75 |
| `Conversation.CallName` | src/conversation.rs:28 | the call's `function.name`, or "" when it is missing or not a string. `CallFieldDefaults` states this for every call |
| `Conversation.CallArguments` | src/conversation.rs:29 | the call's `function.arguments`, or "{}" when it is missing or not a string. `CallFieldDefaults` states this for every call |
| `Conversation.CallId` | src/conversation.rs:31 | the call's `id`, or "" when it is missing or not a string. `CallFieldDefaults` states this for every call |
| `Conversation.Text` | src/conversation.rs:44 | `unwrap_or_else` with the identity: a tool's output and a tool's error both become the answer's text as they are |
| `Conversation.ToolMessage` | src/conversation.rs:41-45 | the answer has exactly the fields `role` = "tool", `tool_call_id` = the call's id and `content` = the text |
| `Conversation.Dispatch` | src/conversation.rs:33-38 | an unknown name yields "Tool <name> not found" and leaves the file system as it was, so no executor runs. A known name runs exactly the executor of the parsed tool |
| `Conversation.DispatchRunsOwnExecutor` | src/conversation.rs:33-36 | each tool's own spelling reaches exactly that tool's executor, with the decoded arguments |
| `Conversation.HandleCall` | src/conversation.rs:27-48 | a call fails exactly when its argument string does not decode, and then with the decoder's error. Otherwise it yields one message with role "tool", the call's id and the tool's text (success or failure alike), and the file system as the tool left it |
| `Conversation.AnswerCarriesToolText` | src/conversation.rs:33-45 | when the arguments decode, the answer's `content` is the dispatched tool's text, its output or its error alike, and the file system is as that tool left it |
| `Conversation.CallFieldDefaults` | src/conversation.rs:28-31 | for every call, a missing or non-string name reads as "", arguments as "{}" and id as "", and a field that is a string is taken as it is |
| `Conversation.NamelessCallNotFound` | src/conversation.rs:28-37 | a call without a name is answered "Tool  not found" (two spaces) and runs nothing |
| `Conversation.UnknownToolAnswered` | src/conversation.rs:33-37 | an unknown name is answered "Tool <name> not found", carries the call's id, and runs nothing |
| `Conversation.EnvReadAnsweredWithRefusal` | src/conversation.rs:35-45 | a read whose decoded arguments name a regular file called `.env` (the bare path `.env` or `<dir>/.env`), whatever other keys they carry, is answered with the refusal text as an ordinary tool message, not as a failure of the call. The file system is unchanged |
| `Conversation.Manager.constructor` | src/conversation.rs:10-19 | a new conversation holds exactly the user message with the prompt, and the catalogue bash, read, write |
| `Conversation.Manager.AddMessage` | src/conversation.rs:22-24 | the log grows by exactly the new message, at its end; earlier messages are unchanged and the catalogue is untouched |
| `Conversation.Manager.HandleToolCall` | src/conversation.rs:27-48 | on a decoding failure it returns the error and appends nothing. Otherwise it appends exactly the one tool message `HandleCall` describes and returns `Ok`, whether or not the tool succeeded |
| `AgentLoop.ReplyMessage` | src/main.rs:49 | the reply is `choices[0].message`. A response without a non-empty `choices` array gives `Null`, which carries no tool calls |
| `AgentLoop.ToolCalls` | src/main.rs:52 | the calls are present exactly when `tool_calls` is an array, and are then that array's elements |
| `AgentLoop.CallHandlerBehaves` | src/conversation.rs:27-45 | `handle_tool_call`, as the loop sees it, fails exactly on a call whose arguments do not decode, with the decoder's error, and otherwise adds a tool message carrying that call's id |
| `AgentLoop.HandleBatch` | src/main.rs:53-55 | the inner `for` over the calls, stopping at the first call the handler rejects. The `Batch` lemmas state its behaviour |
| `AgentLoop.BatchKeepsHistory` | src/main.rs:53-55 | handling a batch of calls keeps the log it started from and adds at most one message per call |
| `AgentLoop.BatchHandledDecode` | src/main.rs:53-54 | every call a batch has answered had arguments that decoded |
| `AgentLoop.BatchAnswersInOrder` | src/main.rs:53-55 | the k-th message a batch adds answers the k-th call |
| `AgentLoop.BatchStopsAtFirstUndecodable` | src/main.rs:53-54 | a batch fails only at a call whose arguments do not decode, with that call's error, and after handling exactly the calls before it |
| `AgentLoop.BatchCompleteIffAllDecode` | src/main.rs:53-56 | a batch handles every call exactly when every call's arguments decode |
| `AgentLoop.BatchFailsAtFirstUndecodable` | src/main.rs:53-54 | when call k is the first that does not decode, the batch answers exactly calls 0..k-1 in order, fails with call k's error, and leaves the file system as calls 0..k-1 left it |
| `AgentLoop.BatchSplit` | src/main.rs:53-55 | handling a batch is handling its first k calls and then, if none of them failed, the rest, from the log and file system the first k left |
| `AgentLoop.Loop` | src/main.rs:38-64 | the outer loop over a scripted backend. A run runs out of script only when every reply was a response carrying a `tool_calls` array. The lemmas below state it round by round and over a whole run |
| `AgentLoop.LoopKeepsHistory` | src/main.rs:38-64 | a run only appends: the log it started from stays at the front |
| `AgentLoop.BackendErrorEndsRun` | src/main.rs:40-47 | a backend failure ends the run with that error, and nothing is appended for the round |
| `AgentLoop.ReplyAppendedFirst` | src/main.rs:49-52 | the reply at `choices[0].message` is appended first, whether or not it carries tool calls |
| `AgentLoop.PlainReplyFinishes` | src/main.rs:59-63 | a reply without a `tool_calls` array ends the run with the reply appended. The output is its content when that is a string; absent content ends quietly, not as an error |
| `AgentLoop.EmptyToolCallsContinue` | src/main.rs:52-56 | an empty `tool_calls` array adds no tool message and starts another round instead of finishing |
| `AgentLoop.ToolRoundContinues` | src/main.rs:52-56 | when every call decodes, one answer per call is appended in the calls' order, and the next round starts from that log |
| `AgentLoop.UndecodableCallAborts` | src/main.rs:53-54 | the first undecodable call aborts the run with its error. Later calls are not handled: they add no message, and the file system is as the earlier calls left it. The answers to earlier calls stay in the log |
| `AgentLoop.OneToolRoundThenAnswer` | src/main.rs:36-63 | one tool round and then a plain reply leave exactly 4 messages (user, assistant, tool, assistant); the tool message answers the call and the output is the final reply's text |
| `AgentLoop.EnvReadRoundContinues` | src/main.rs:52-56 | a round whose one call reads a regular file named `.env` (bare or in any directory) appends the refusal as the answer, and the run goes on to the next round |
| `AgentLoop.BatchIsRound` | src/main.rs:52-56 | the reply followed by what its batch appends is a round: the reply then answers to its first calls, in order |
| `AgentLoop.EveryAnswerFollowsItsRequest` | src/main.rs:38-64 | over a whole run, the log is the starting log followed by one round per reply taken, in script order. So every tool message answers, by id and position, a call of the reply it follows |
| `AgentLoop.RunLoop` | src/main.rs:38-64 | the imperative loop, with its inner `for` over the calls and its early exits, ends with the outcome, log and file system that `Loop` gives for the script |

## Left out

- misc/openai-model-list.py is not part of this model: it is a one-shot script that lists models over the network.
- Command-line parsing, environment variables, HTTP client setup, the async runtime and `process::exit` (src/main.rs:1-37, 66) are not modelled.
- The backend call `create_byot` is a scripted sequence of replies or errors. The model identifier and the log and catalogue sent with each request are not modelled, because a scripted backend ignores them.
- AgentLoop.RunLoop: the real loop has no bound. The model takes one script entry per round and ends with the extra outcome `ScriptExhausted` when the script runs out, so runs longer than the script are not covered.
- Errors are plain strings. The boxed error types of `?` in `main` and `e.to_string()` in the decoder are not modelled.
- JSON decoding and encoding is the `parse` parameter, and the JSON tree keeps numbers as integers. Floating-point numbers are not modelled.
- The shell and write tools (their spellings, definitions and executors) are fields of the `OtherTools` parameter, since their code is not part of this model. Their behaviours are therefore not modelled: the "Command failed" text, the write tool's `.env` check, and a write followed by a read returning the written text.
- Tools.FileName: models `Path::file_name` as the text after the last '/'. It is absent for "", "." and "..". Rust's removal of trailing '/' and '.' components is not modelled.
- The real file system is not modelled: symbolic links, changes between the `exists`, `is_file` and read steps, and `Path::display`'s lossy rendering.
- Printing to standard output is not modelled: the printed text is the `output` of the `Finished` outcome.
- Tools.ParseName: when two spellings coincide, the result depends on the order of comparison. The round-trip and dispatch results assume `DistinctNames`.
