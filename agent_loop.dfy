/**
  The agent loop of `main` (src/main.rs): send the conversation to the backend, append
  the reply, then either answer every tool call it carries and go round again, or
  output its text and stop.

  The backend is a script: the replies (or transport errors) it gives, in order, one
  per round. `Loop` is the run as a function of the script; `RunLoop` is the loop itself
  over a `Manager`, proved to end in the state `Loop` describes.
 */
module AgentLoop {
  import opened Wrappers
  import opened Json
  import opened Tools
  import opened Conversation

  /** What one request to the backend yields: the response body, or the error. */
  datatype Reply = Response(body: Value) | BackendError(error: string)

  /** How a run ends: the final reply's text is printed when it is a string; an error
      ends the run; a script with no more replies ends it too. */
  datatype Outcome = Finished(output: Option<string>) | Failed(error: string) | ScriptExhausted

  datatype Final = Final(outcome: Outcome, history: seq<Value>, fs: FileSystem)

  /** `response["choices"][0]["message"]`. */
  function ReplyMessage(body: Value): (m: Value)
    ensures !Get(body, "choices").Array? || Get(body, "choices").items == [] ==> m == Null
  {
    Get(At(Get(body, "choices"), 0), "message")
  }

  /** `message["tool_calls"].as_array()`. */
  function ToolCalls(message: Value): (r: Option<seq<Value>>)
    ensures r.Some? <==> Get(message, "tool_calls").Array?
    ensures r.Some? ==> Get(message, "tool_calls") == Array(r.value)
  {
    AsArray(Get(message, "tool_calls"))
  }

  predicate Decodes(call: Value, parse: Parser) {
    parse(CallArguments(call)).Ok?
  }

  /** A tool message that answers the given call. */
  predicate AnswersCall(message: Value, call: Value) {
    Role(message) == Some("tool") && Get(message, "tool_call_id") == Str(CallId(call))
  }

  /** How one tool call is handled: `Manager::handle_tool_call` on values. */
  type Handler = (Value, FileSystem) -> Handling

  function CallHandler(parse: Parser, others: OtherTools): Handler {
    (call, fs) => HandleCall(call, fs, parse, others)
  }

  /** What the batch lemmas need of the handler: it rejects exactly the calls whose
      arguments do not decode, with the decoder's error ... */
  ghost predicate RejectsUndecodable(handle: Handler, parse: Parser) {
    forall call, fs ::
      && (handle(call, fs).Undecodable? <==> !Decodes(call, parse))
      && (handle(call, fs).Undecodable? ==> handle(call, fs).error == parse(CallArguments(call)).error)
  }

  /** ... and otherwise gives a message that answers the call, for a given notion of
      answering (for `handle_tool_call`, `AnswersCall`). */
  ghost predicate AnswersAccepted(handle: Handler, answers: (Value, Value) -> bool) {
    forall call, fs :: handle(call, fs).Answered? ==> answers(handle(call, fs).message, call)
  }

  /** A handler that behaves as `handle_tool_call` does towards the loop. */
  ghost predicate HandlesLikeManager(handle: Handler, parse: Parser) {
    RejectsUndecodable(handle, parse) && AnswersAccepted(handle, AnswersCall)
  }

  /** `handle_tool_call` is such a handler. */
  lemma CallHandlerBehaves(parse: Parser, others: OtherTools)
    ensures HandlesLikeManager(CallHandler(parse, others), parse)
  {
  }

  /** The log, the file system and the first decoding error after a batch of calls. */
  datatype Batch = Batch(history: seq<Value>, fs: FileSystem, failure: Option<string>)

  /** The inner `for call in tool_calls`: each call in turn, stopping at the first one
      that the handler rejects. */
  function HandleBatch(history: seq<Value>, calls: seq<Value>, fs: FileSystem, handle: Handler): Batch
    decreases |calls|
  {
    if calls == [] then Batch(history, fs, None)
    else
      match handle(calls[0], fs)
      case Undecodable(e) => Batch(history, fs, Some(e))
      case Answered(message, fs') => HandleBatch(history + [message], calls[1..], fs', handle)
  }

  /** The outer `loop`, one round per reply of the script, each tool call handled by
      `handle` (for `main`, `CallHandler`). */
  function Loop(history: seq<Value>, script: seq<Reply>, fs: FileSystem, handle: Handler): (r: Final)
    ensures r.outcome.ScriptExhausted? ==>
      forall i :: 0 <= i < |script| ==> script[i].Response? && ToolCalls(ReplyMessage(script[i].body)).Some?
    decreases |script|
  {
    if script == [] then Final(ScriptExhausted, history, fs)
    else
      match script[0]
      case BackendError(e) => Final(Failed(e), history, fs)
      case Response(body) =>
        var message := ReplyMessage(body);
        var h := history + [message];
        match ToolCalls(message)
        case None => Final(Finished(AsStr(Get(message, "content"))), h, fs)
        case Some(calls) =>
          var b := HandleBatch(h, calls, fs, handle);
          if b.failure.Some? then Final(Failed(b.failure.value), b.history, b.fs)
          else Loop(b.history, script[1..], b.fs, handle)
  }

  /** A batch keeps the log it started from and adds at most one message per call. */
  lemma {:induction false} BatchKeepsHistory(history: seq<Value>, calls: seq<Value>, fs: FileSystem, handle: Handler)
    ensures |history| <= |HandleBatch(history, calls, fs, handle).history| <= |history| + |calls|
    ensures HandleBatch(history, calls, fs, handle).history[..|history|] == history
    decreases |calls|
  {
    if calls != [] {
      var handled := handle(calls[0], fs);
      if handled.Answered? {
        var h' := history + [handled.message];
        BatchKeepsHistory(h', calls[1..], handled.fs, handle);
        var b := HandleBatch(h', calls[1..], handled.fs, handle);
        assert b.history[..|history|] == b.history[..|h'|][..|history|];
      }
    }
  }

  /** Every call a batch has handled had arguments that decoded. */
  lemma {:induction false} BatchHandledDecode(history: seq<Value>, calls: seq<Value>, fs: FileSystem, handle: Handler, parse: Parser)
    requires RejectsUndecodable(handle, parse)
    ensures forall i :: 0 <= i < |calls| && i < |HandleBatch(history, calls, fs, handle).history| - |history| ==>
      Decodes(calls[i], parse)
    decreases |calls|
  {
    BatchKeepsHistory(history, calls, fs, handle);
    if calls != [] {
      var handled := handle(calls[0], fs);
      if handled.Answered? {
        var h' := history + [handled.message];
        BatchHandledDecode(h', calls[1..], handled.fs, handle, parse);
        forall i | 0 < i < |calls| && i < |HandleBatch(history, calls, fs, handle).history| - |history|
          ensures Decodes(calls[i], parse)
        {
          assert calls[i] == calls[1..][i - 1];
        }
      }
    }
  }

  /** The messages a batch adds answer the calls in their order, one each. */
  lemma {:induction false} BatchAnswersInOrder(history: seq<Value>, calls: seq<Value>, fs: FileSystem, handle: Handler, answers: (Value, Value) -> bool)
    requires AnswersAccepted(handle, answers)
    ensures forall i :: 0 <= i < |calls| && i < |HandleBatch(history, calls, fs, handle).history| - |history| ==>
      answers(HandleBatch(history, calls, fs, handle).history[|history| + i], calls[i])
    decreases |calls|
  {
    BatchKeepsHistory(history, calls, fs, handle);
    if calls != [] {
      var handled := handle(calls[0], fs);
      if handled.Answered? {
        var h' := history + [handled.message];
        BatchKeepsHistory(h', calls[1..], handled.fs, handle);
        BatchAnswersInOrder(h', calls[1..], handled.fs, handle, answers);
        var b := HandleBatch(h', calls[1..], handled.fs, handle);
        assert b.history[|history|] == handled.message by {
          assert b.history[..|h'|][|history|] == h'[|history|];
        }
        forall i | 0 < i < |calls| && i < |b.history| - |history|
          ensures answers(b.history[|history| + i], calls[i])
        {
          assert calls[i] == calls[1..][i - 1];
          assert b.history[|history| + i] == b.history[|h'| + (i - 1)];
        }
      }
    }
  }

  /** A batch handles every call unless some call's arguments do not decode; then it
      stops at the first such call and reports that call's decoding error. */
  lemma {:induction false} BatchStopsAtFirstUndecodable(history: seq<Value>, calls: seq<Value>, fs: FileSystem, handle: Handler, parse: Parser)
    requires RejectsUndecodable(handle, parse)
    ensures var b := HandleBatch(history, calls, fs, handle);
      b.failure.None? <==> |b.history| == |history| + |calls|
    ensures var b := HandleBatch(history, calls, fs, handle);
      var n := |b.history| - |history|;
      b.failure.Some? ==>
        && 0 <= n < |calls|
        && !Decodes(calls[n], parse)
        && b.failure.value == parse(CallArguments(calls[n])).error
    decreases |calls|
  {
    if calls != [] {
      var handled := handle(calls[0], fs);
      if handled.Answered? {
        var h' := history + [handled.message];
        BatchKeepsHistory(h', calls[1..], handled.fs, handle);
        BatchStopsAtFirstUndecodable(h', calls[1..], handled.fs, handle, parse);
        var b := HandleBatch(h', calls[1..], handled.fs, handle);
        assert b == HandleBatch(history, calls, fs, handle);
        if b.failure.Some? {
          var n := |b.history| - |history|;
          assert calls[1..][n - 1] == calls[n];
          assert b.failure.value == parse(CallArguments(calls[n])).error;
        }
      } else {
        assert handled.error == parse(CallArguments(calls[0])).error;
        assert HandleBatch(history, calls, fs, handle) == Batch(history, fs, Some(handled.error));
      }
    }
  }

  /** So a batch is complete exactly when every call's arguments decode. */
  lemma BatchCompleteIffAllDecode(history: seq<Value>, calls: seq<Value>, fs: FileSystem, handle: Handler, parse: Parser)
    requires RejectsUndecodable(handle, parse)
    ensures HandleBatch(history, calls, fs, handle).failure.None?
        <==> forall i :: 0 <= i < |calls| ==> Decodes(calls[i], parse)
  {
    var b := HandleBatch(history, calls, fs, handle);
    BatchKeepsHistory(history, calls, fs, handle);
    BatchHandledDecode(history, calls, fs, handle, parse);
    BatchStopsAtFirstUndecodable(history, calls, fs, handle, parse);
  }

  /** A run only ever appends: the log it started from is still there at the front. */
  lemma {:induction false} LoopKeepsHistory(history: seq<Value>, script: seq<Reply>, fs: FileSystem, handle: Handler)
    ensures |history| <= |Loop(history, script, fs, handle).history|
    ensures Loop(history, script, fs, handle).history[..|history|] == history
    decreases |script|
  {
    if script != [] && script[0].Response? {
      var message := ReplyMessage(script[0].body);
      var h := history + [message];
      if ToolCalls(message).Some? {
        var b := HandleBatch(h, ToolCalls(message).value, fs, handle);
        BatchKeepsHistory(h, ToolCalls(message).value, fs, handle);
        assert b.history[..|history|] == b.history[..|h|][..|history|];
        if b.failure.None? {
          LoopKeepsHistory(b.history, script[1..], b.fs, handle);
          var f := Loop(b.history, script[1..], b.fs, handle);
          assert f.history[..|history|] == f.history[..|b.history|][..|history|];
        }
      }
    }
  }

  /** A backend failure ends the run at once, with nothing appended for that round. */
  lemma BackendErrorEndsRun(history: seq<Value>, error: string, rest: seq<Reply>, fs: FileSystem, handle: Handler)
    ensures Loop(history, [BackendError(error)] + rest, fs, handle) == Final(Failed(error), history, fs)
  {
  }

  /** The reply is appended before its tool calls are looked at, with or without any. */
  // Not a proof by induction: the attribute only stops the solver from attempting one,
  // which costs more than the proof itself.
  lemma {:induction false} ReplyAppendedFirst(history: seq<Value>, body: Value, rest: seq<Reply>, fs: FileSystem, handle: Handler)
    ensures |history| < |Loop(history, [Response(body)] + rest, fs, handle).history|
    ensures Loop(history, [Response(body)] + rest, fs, handle).history[..|history| + 1]
         == history + [ReplyMessage(body)]
  {
    var script := [Response(body)] + rest;
    var message := ReplyMessage(body);
    var h := history + [message];
    assert script[1..] == rest;
    if ToolCalls(message).Some? {
      var b := HandleBatch(h, ToolCalls(message).value, fs, handle);
      BatchKeepsHistory(h, ToolCalls(message).value, fs, handle);
      if b.failure.None? {
        LoopKeepsHistory(b.history, rest, b.fs, handle);
        var f := Loop(b.history, rest, b.fs, handle);
        assert f.history[..|h|] == f.history[..|b.history|][..|h|];
      }
    }
  }

  /** A reply without a `tool_calls` array ends the run; its content is the output
      when it is a string, and a reply without one ends the run quietly, not in error. */
  lemma PlainReplyFinishes(history: seq<Value>, body: Value, rest: seq<Reply>, fs: FileSystem, handle: Handler)
    requires ToolCalls(ReplyMessage(body)).None?
    ensures Loop(history, [Response(body)] + rest, fs, handle)
         == Final(Finished(AsStr(Get(ReplyMessage(body), "content"))), history + [ReplyMessage(body)], fs)
    ensures !Get(ReplyMessage(body), "content").Str? ==>
      Loop(history, [Response(body)] + rest, fs, handle).outcome == Finished(None)
  {
  }

  /** An empty `tool_calls` array is still an array: nothing is answered and the
      next round begins instead of the run finishing. */
  lemma EmptyToolCallsContinue(history: seq<Value>, body: Value, rest: seq<Reply>, fs: FileSystem, handle: Handler)
    requires ToolCalls(ReplyMessage(body)) == Some([])
    ensures Loop(history, [Response(body)] + rest, fs, handle)
         == Loop(history + [ReplyMessage(body)], rest, fs, handle)
  {
    assert ([Response(body)] + rest)[1..] == rest;
  }

  /** The round of the outer loop for a reply that carries tool calls. */
  lemma ToolRound(history: seq<Value>, body: Value, rest: seq<Reply>, fs: FileSystem, handle: Handler)
    requires ToolCalls(ReplyMessage(body)).Some?
    ensures var b := HandleBatch(history + [ReplyMessage(body)], ToolCalls(ReplyMessage(body)).value, fs, handle);
      Loop(history, [Response(body)] + rest, fs, handle)
        == if b.failure.Some? then Final(Failed(b.failure.value), b.history, b.fs) else Loop(b.history, rest, b.fs, handle)
  {
    assert ([Response(body)] + rest)[1..] == rest;
  }

  /** When every call decodes, each gets its answer, in order, and the next round begins. */
  // Not a proof by induction: the attribute only stops the solver from attempting one,
  // which costs more than the proof itself.
  lemma {:induction false} ToolRoundContinues(history: seq<Value>, body: Value, rest: seq<Reply>, fs: FileSystem, handle: Handler, parse: Parser)
    requires HandlesLikeManager(handle, parse)
    requires ToolCalls(ReplyMessage(body)).Some?
    requires forall i :: 0 <= i < |ToolCalls(ReplyMessage(body)).value| ==> Decodes(ToolCalls(ReplyMessage(body)).value[i], parse)
    ensures var calls := ToolCalls(ReplyMessage(body)).value;
      var b := HandleBatch(history + [ReplyMessage(body)], calls, fs, handle);
      && |b.history| == |history| + 1 + |calls|
      && b.history[..|history| + 1] == history + [ReplyMessage(body)]
      && (forall i :: 0 <= i < |calls| ==> AnswersCall(b.history[|history| + 1 + i], calls[i]))
      && Loop(history, [Response(body)] + rest, fs, handle) == Loop(b.history, rest, b.fs, handle)
  {
    var h := history + [ReplyMessage(body)];
    var calls := ToolCalls(ReplyMessage(body)).value;
    BatchKeepsHistory(h, calls, fs, handle);
    BatchCompleteIffAllDecode(h, calls, fs, handle, parse);
    BatchStopsAtFirstUndecodable(h, calls, fs, handle, parse);
    BatchAnswersInOrder(h, calls, fs, handle, AnswersCall);
    var b := HandleBatch(h, calls, fs, handle);
    var answers: (Value, Value) -> bool := AnswersCall;
    forall i | 0 <= i < |calls|
      ensures AnswersCall(b.history[|history| + 1 + i], calls[i])
    {
      assert answers(b.history[|h| + i], calls[i]);
      assert b.history[|h| + i] == b.history[|history| + 1 + i];
    }
    ToolRound(history, body, rest, fs, handle);
  }

  /** Handling a batch is handling its first `k` calls and then, when none of those
      failed, the rest, from the log and file system the first `k` left. */
  lemma {:induction false} BatchSplit(history: seq<Value>, calls: seq<Value>, fs: FileSystem, handle: Handler, k: nat)
    requires k <= |calls|
    requires HandleBatch(history, calls[..k], fs, handle).failure.None?
    ensures var prefix := HandleBatch(history, calls[..k], fs, handle);
      HandleBatch(history, calls, fs, handle) == HandleBatch(prefix.history, calls[k..], prefix.fs, handle)
    decreases k
  {
    if k == 0 {
      assert calls[..0] == [] && calls[0..] == calls;
    } else {
      var handled := handle(calls[0], fs);
      assert calls[..k][0] == calls[0];
      assert handled.Answered?;
      assert calls[..k][1..] == calls[1..][..k - 1];
      BatchSplit(history + [handled.message], calls[1..], handled.fs, handle, k - 1);
      assert calls[1..][k - 1..] == calls[k..];
    }
  }

  /** A batch whose call `k` is the first that does not decode answers exactly the
      calls before `k`, in order, and fails with call `k`'s decoding error, leaving the
      file system as those calls left it: no later call runs. */
  lemma BatchFailsAtFirstUndecodable(history: seq<Value>, calls: seq<Value>, fs: FileSystem, handle: Handler, parse: Parser, answers: (Value, Value) -> bool, k: nat)
    requires RejectsUndecodable(handle, parse) && AnswersAccepted(handle, answers)
    requires k < |calls| && !Decodes(calls[k], parse)
    requires forall i :: 0 <= i < k ==> Decodes(calls[i], parse)
    ensures var b := HandleBatch(history, calls, fs, handle);
      && b.failure == Some(parse(CallArguments(calls[k])).error)
      && |b.history| == |history| + k
      && b.history[..|history|] == history
      && (forall i :: 0 <= i < k ==> answers(b.history[|history| + i], calls[i]))
      && b.fs == HandleBatch(history, calls[..k], fs, handle).fs
  {
    var b := HandleBatch(history, calls, fs, handle);
    var prefix := HandleBatch(history, calls[..k], fs, handle);
    assert forall i :: 0 <= i < k ==> calls[..k][i] == calls[i];
    BatchCompleteIffAllDecode(history, calls[..k], fs, handle, parse);
    BatchSplit(history, calls, fs, handle, k);
    assert calls[k..][0] == calls[k];
    assert b.fs == prefix.fs;
    BatchKeepsHistory(history, calls, fs, handle);
    BatchHandledDecode(history, calls, fs, handle, parse);
    BatchAnswersInOrder(history, calls, fs, handle, answers);
    BatchStopsAtFirstUndecodable(history, calls, fs, handle, parse);
    var n := |b.history| - |history|;
    assert n <= k;
    assert b.failure.Some?;
    assert n == k;
  }

  /** A call whose arguments do not decode aborts the run with the decoder's error:
      the calls after it are not handled (no answer, no effect on the file system), the
      answers to the calls before it stay. */
  // Not a proof by induction: the attribute only stops the solver from attempting one,
  // which costs more than the proof itself.
  lemma {:induction false} UndecodableCallAborts(history: seq<Value>, body: Value, rest: seq<Reply>, fs: FileSystem, handle: Handler, parse: Parser, k: nat)
    requires HandlesLikeManager(handle, parse)
    requires ToolCalls(ReplyMessage(body)).Some?
    requires k < |ToolCalls(ReplyMessage(body)).value|
    requires !Decodes(ToolCalls(ReplyMessage(body)).value[k], parse)
    requires forall i :: 0 <= i < k ==> Decodes(ToolCalls(ReplyMessage(body)).value[i], parse)
    ensures var calls := ToolCalls(ReplyMessage(body)).value;
      var f := Loop(history, [Response(body)] + rest, fs, handle);
      && f.outcome == Failed(parse(CallArguments(calls[k])).error)
      && |f.history| == |history| + 1 + k
      && f.history[..|history| + 1] == history + [ReplyMessage(body)]
      && (forall i :: 0 <= i < k ==> AnswersCall(f.history[|history| + 1 + i], calls[i]))
      && f.fs == HandleBatch(history + [ReplyMessage(body)], calls[..k], fs, handle).fs
  {
    var h := history + [ReplyMessage(body)];
    var calls := ToolCalls(ReplyMessage(body)).value;
    BatchFailsAtFirstUndecodable(h, calls, fs, handle, parse, AnswersCall, k);
    var b := HandleBatch(h, calls, fs, handle);
    var answers: (Value, Value) -> bool := AnswersCall;
    forall i | 0 <= i < k
      ensures AnswersCall(b.history[|history| + 1 + i], calls[i])
    {
      assert answers(b.history[|h| + i], calls[i]);
      assert b.history[|h| + i] == b.history[|history| + 1 + i];
    }
    ToolRound(history, body, rest, fs, handle);
  }

  /** The role of each message of a log, where it is a string. */
  function Roles(history: seq<Value>): seq<Option<string>> {
    seq(|history|, i requires 0 <= i < |history| => Role(history[i]))
  }

  /** One tool round and then a plain reply: the log ends as user, assistant, tool,
      assistant, the tool message answering the one call, and the output is the
      final reply's text. */
  // Not a proof by induction: the attribute only stops the solver from attempting one,
  // which costs more than the proof itself.
  lemma {:induction false} OneToolRoundThenAnswer(prompt: string, first: Value, second: Value, rest: seq<Reply>, fs: FileSystem, handle: Handler, parse: Parser)
    requires HandlesLikeManager(handle, parse)
    requires ToolCalls(ReplyMessage(first)).Some? && |ToolCalls(ReplyMessage(first)).value| == 1
    requires Decodes(ToolCalls(ReplyMessage(first)).value[0], parse)
    requires ToolCalls(ReplyMessage(second)).None?
    requires Role(ReplyMessage(first)) == Some("assistant") && Role(ReplyMessage(second)) == Some("assistant")
    ensures var f := Loop([UserMessage(prompt)], [Response(first), Response(second)] + rest, fs, handle);
      && f.outcome == Finished(AsStr(Get(ReplyMessage(second), "content")))
      && |f.history| == 4
      && f.history[0] == UserMessage(prompt)
      && f.history[1] == ReplyMessage(first)
      && AnswersCall(f.history[2], ToolCalls(ReplyMessage(first)).value[0])
      && f.history[3] == ReplyMessage(second)
      && Roles(f.history) == [Some("user"), Some("assistant"), Some("tool"), Some("assistant")]
  {
    var start := [UserMessage(prompt)];
    var calls := ToolCalls(ReplyMessage(first)).value;
    assert [Response(first), Response(second)] + rest == [Response(first)] + ([Response(second)] + rest);
    ToolRoundContinues(start, first, [Response(second)] + rest, fs, handle, parse);
    var b := HandleBatch(start + [ReplyMessage(first)], calls, fs, handle);
    PlainReplyFinishes(b.history, second, rest, fs, handle);
    assert b.history[..2] == start + [ReplyMessage(first)];
    assert b.history[0] == UserMessage(prompt) by { assert b.history[..2][0] == b.history[0]; }
    assert b.history[1] == ReplyMessage(first) by { assert b.history[..2][1] == b.history[1]; }
    assert AnswersCall(b.history[2], calls[0]);
  }

  /** With `handle_tool_call`, a round whose one call asks to read a `.env` file (in the
      working directory or any other) gets the refusal as its answer, and the run goes on
      to the next round rather than ending. */
  // Not a proof by induction: the attribute only stops the solver from attempting one,
  // which costs more than the proof itself.
  lemma {:induction false} EnvReadRoundContinues(history: seq<Value>, body: Value, rest: seq<Reply>, path: string, fs: FileSystem, parse: Parser, others: OtherTools)
    requires ToolCalls(ReplyMessage(body)).Some? && |ToolCalls(ReplyMessage(body)).value| == 1
    requires CallName(ToolCalls(ReplyMessage(body)).value[0]) == ReadName
    requires parse(CallArguments(ToolCalls(ReplyMessage(body)).value[0])).Ok?
    requires FilePathArgument(parse(CallArguments(ToolCalls(ReplyMessage(body)).value[0])).value) == Some(path)
    requires path in fs && fs[path].RegularFile? && FileName(path) == Some(".env")
    ensures Loop(history, [Response(body)] + rest, fs, CallHandler(parse, others))
         == Loop(history + [ReplyMessage(body), ToolMessage(CallId(ToolCalls(ReplyMessage(body)).value[0]), EnvForbidden)], rest, fs, CallHandler(parse, others))
  {
    var call := ToolCalls(ReplyMessage(body)).value[0];
    var h := history + [ReplyMessage(body)];
    EnvReadAnsweredWithRefusal(call, path, fs, parse, others);
    assert ToolCalls(ReplyMessage(body)).value[1..] == [];
    assert HandleBatch(h, [call], fs, CallHandler(parse, others)) == Batch(h + [ToolMessage(CallId(call), EnvForbidden)], fs, None);
    assert h + [ToolMessage(CallId(call), EnvForbidden)] == history + [ReplyMessage(body), ToolMessage(CallId(call), EnvForbidden)];
    assert ([Response(body)] + rest)[1..] == rest;
  }

  /** What one round appends: the reply, then answers to the first calls it carries,
      one per call and in the calls' order. */
  ghost predicate AnsweredRound(round: seq<Value>, answers: (Value, Value) -> bool) {
    && |round| >= 1
    && (|round| > 1 ==>
          && ToolCalls(round[0]).Some?
          && |round| - 1 <= |ToolCalls(round[0]).value|
          && forall i :: 1 <= i < |round| ==> answers(round[i], ToolCalls(round[0]).value[i - 1]))
  }

  function Concat(rounds: seq<seq<Value>>): seq<Value> {
    if rounds == [] then [] else rounds[0] + Concat(rounds[1..])
  }

  /** The messages one batch adds after the reply that carried its calls form a round. */
  lemma BatchIsRound(history: seq<Value>, message: Value, fs: FileSystem, handle: Handler, answers: (Value, Value) -> bool)
    requires AnswersAccepted(handle, answers)
    requires ToolCalls(message).Some?
    ensures var h := history + [message];
      var b := HandleBatch(h, ToolCalls(message).value, fs, handle);
      && |h| <= |b.history|
      && AnsweredRound([message] + b.history[|h|..], answers)
      && b.history == history + ([message] + b.history[|h|..])
  {
    var h := history + [message];
    var calls := ToolCalls(message).value;
    BatchKeepsHistory(h, calls, fs, handle);
    BatchAnswersInOrder(h, calls, fs, handle, answers);
    var b := HandleBatch(h, calls, fs, handle);
    var round := [message] + b.history[|h|..];
    forall i | 1 <= i < |round|
      ensures answers(round[i], calls[i - 1])
    {
      assert round[i] == b.history[|h| + (i - 1)];
      assert i - 1 < |calls| && i - 1 < |b.history| - |h|;
    }
    assert b.history == b.history[..|h|] + b.history[|h|..];
  }

  /** The rounds were appended for the first replies of the script, in its order. */
  ghost predicate RoundsFollowScript(rounds: seq<seq<Value>>, script: seq<Reply>, answers: (Value, Value) -> bool) {
    && |rounds| <= |script|
    && forall i :: 0 <= i < |rounds| ==>
         script[i].Response? && AnsweredRound(rounds[i], answers) && rounds[i][0] == ReplyMessage(script[i].body)
  }

  lemma RoundsFollowScriptCons(round: seq<Value>, later: seq<seq<Value>>, script: seq<Reply>, answers: (Value, Value) -> bool)
    requires script != [] && script[0].Response? && AnsweredRound(round, answers) && round[0] == ReplyMessage(script[0].body)
    requires RoundsFollowScript(later, script[1..], answers)
    ensures RoundsFollowScript([round] + later, script, answers)
    ensures Concat([round] + later) == round + Concat(later)
  {
    var rounds := [round] + later;
    assert rounds[1..] == later;
    forall i | 0 < i < |rounds|
      ensures script[i].Response? && AnsweredRound(rounds[i], answers) && rounds[i][0] == ReplyMessage(script[i].body)
    {
      assert rounds[i] == later[i - 1];
      assert script[i] == script[1..][i - 1];
    }
  }

  lemma ConcatAfter(history: seq<Value>, round: seq<Value>, later: seq<seq<Value>>)
    ensures (history + round) + Concat(later) == history + Concat([round] + later)
  {
    assert ([round] + later)[1..] == later;
  }

  /** Over a whole run, the log is the log it started from followed by one round per
      reply taken from the script, in the script's order: so every tool message in it
      answers, by id and position, a call of the reply it follows. */
  lemma {:induction false} EveryAnswerFollowsItsRequest(history: seq<Value>, script: seq<Reply>, fs: FileSystem, handle: Handler)
    requires AnswersAccepted(handle, AnswersCall)
    ensures exists rounds ::
      RoundsFollowScript(rounds, script, AnswersCall) && Loop(history, script, fs, handle).history == history + Concat(rounds)
    decreases |script|
  {
    var f := Loop(history, script, fs, handle);
    if script == [] || script[0].BackendError? {
      var rounds: seq<seq<Value>> := [];
      assert RoundsFollowScript(rounds, script, AnswersCall) && f.history == history + Concat(rounds);
    } else {
      var message := ReplyMessage(script[0].body);
      var h := history + [message];
      var none: seq<seq<Value>> := [];
      assert RoundsFollowScript(none, script[1..], AnswersCall);
      if ToolCalls(message).None? {
        RoundsFollowScriptCons([message], none, script, AnswersCall);
        assert RoundsFollowScript([[message]] + none, script, AnswersCall) && f.history == history + Concat([[message]] + none);
      } else {
        var b := HandleBatch(h, ToolCalls(message).value, fs, handle);
        BatchIsRound(history, message, fs, handle, AnswersCall);
        var round := [message] + b.history[|h|..];
        if b.failure.Some? {
          RoundsFollowScriptCons(round, none, script, AnswersCall);
          assert RoundsFollowScript([round] + none, script, AnswersCall) && f.history == history + Concat([round] + none);
        } else {
          assert f == Loop(b.history, script[1..], b.fs, handle);
          EveryAnswerFollowsItsRequest(b.history, script[1..], b.fs, handle);
          var later :| RoundsFollowScript(later, script[1..], AnswersCall) && f.history == b.history + Concat(later);
          RoundsFollowScriptCons(round, later, script, AnswersCall);
          ConcatAfter(history, round, later);
        }
      }
    }
  }

  /** `for call in tool_calls { manager.handle_tool_call(call)?; }` followed by `continue`,
      and the surrounding `loop`: the run ends in exactly the state `Loop` describes.
      Each round takes the next reply of the script. */
  method RunLoop(m: Manager, script: seq<Reply>, fs0: FileSystem, parse: Parser, others: OtherTools)
    returns (outcome: Outcome, fs: FileSystem)
    modifies m`messages
    ensures Final(outcome, m.messages, fs) == Loop(old(m.messages), script, fs0, CallHandler(parse, others))
  {
    fs := fs0;
    var round := 0;
    while round < |script|
      invariant round <= |script|
      invariant Loop(m.messages, script[round..], fs, CallHandler(parse, others)) == Loop(old(m.messages), script, fs0, CallHandler(parse, others))
      decreases |script| - round
    {
      assert script[round..][1..] == script[round + 1..];
      var reply := script[round];
      if reply.BackendError? {
        return Failed(reply.error), fs;
      }
      var message := ReplyMessage(reply.body);
      m.AddMessage(message);
      var toolCalls := ToolCalls(message);
      if toolCalls.Some? {
        var calls := toolCalls.value;
        ghost var start, fsStart := m.messages, fs;
        for i := 0 to |calls|
          invariant HandleBatch(m.messages, calls[i..], fs, CallHandler(parse, others)) == HandleBatch(start, calls, fsStart, CallHandler(parse, others))
        {
          assert calls[i..][1..] == calls[i + 1..];
          var r, fs' := m.HandleToolCall(calls[i], fs, parse, others);
          if r.Err? {
            return Failed(r.error), fs;
          }
          fs := fs';
        }
        round := round + 1;
        continue;
      }
      return Finished(AsStr(Get(message, "content"))), fs;
    }
    outcome := ScriptExhausted;
  }
}
