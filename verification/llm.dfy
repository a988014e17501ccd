/**
 * The streaming tool-call orchestrator (`LLMClient.process_query`, backend/llm.py).
 *
 * One turn reads the provider's streamed deltas, forwards text as it arrives,
 * assembles tool calls from indexed fragments, runs the complete ones, asks the
 * provider once more when any call was assembled, and closes with a single `end`.
 * Any exception inside the turn becomes one error chunk followed by `end`.
 *
 * The provider, JSON and the tools' library calls are inputs (Env, ProviderStream).
 * The turn is specified by the functions Turn and FinalProgress below; the method
 * ProcessQuery runs the same loops the source runs and is proved to agree with them.
 */
module Llm {
  import opened Wrappers
  import opened Json
  import opened Stream
  import Tools

  // ---------------------------------------------------------------------------
  // Provider input
  // ---------------------------------------------------------------------------

  /** The `function` part of a tool-call fragment; each field may be absent. */
  datatype FunctionPart = FunctionPart(name: Option<string>, arguments: Option<string>)

  /** One tool-call fragment of a delta, tagged with the position of the call it belongs to. */
  datatype Fragment = Fragment(index: nat, id: Option<string>, kind: Option<string>, call: Option<FunctionPart>)

  /** One streamed delta: optional text and a list of tool-call fragments. */
  datatype Delta = Delta(content: Option<string>, toolCalls: seq<Fragment>)

  /**
   * The provider's stream: the deltas it delivers, and the exception (its message) it
   * raises after them, if any. A failure to open the stream has no deltas.
   */
  datatype ProviderStream = ProviderStream(deltas: seq<Delta>, failure: Option<string>)

  // ---------------------------------------------------------------------------
  // Conversation
  // ---------------------------------------------------------------------------

  /** A pending tool call as the orchestrator accumulates it (`type` is `kind` here). */
  datatype ToolCall = ToolCall(id: string, kind: string, name: string, arguments: string)

  /**
   * A conversation message. An assistant message with no tool calls stands for the
   * source's dictionary without a `tool_calls` key.
   */
  datatype Message =
    | System(content: string)
    | User(content: string)
    | Assistant(reply: Option<string>, toolCalls: seq<ToolCall>)
    | ToolResult(toolCallId: string, name: string, content: string)

  /**
   * Everything outside the orchestrator that a turn consults: `json.loads` of a
   * call's arguments, `json.dumps`, the tools' library oracles, and the second,
   * non-streaming completion, which answers the working transcript with optional
   * text or raises.
   */
  datatype Env = Env(
    parse: string -> Parsed,
    dumps: JValue -> string,
    oracles: Tools.Oracles,
    followUp: seq<Message> -> Result<Option<string>, string>)

  const ErrorPrefix := "An error occurred: "

  /** `str(e)` of the AttributeError from reading `.name` of a missing `function` part. */
  const NoFunctionError := "'NoneType' object has no attribute 'name'"

  /** `str(e)` of the AttributeError from calling `.items()` on parsed JSON that is not an object. */
  function NoItemsError(typeName: string): string
  {
    "'" + typeName + "' object has no attribute 'items'"
  }

  /** Python's `x or ""` on an optional string. */
  function OrEmpty(o: Option<string>): string
  {
    match o
    case Some(s) => s
    case None => ""
  }

  /** Python truthiness of an optional string: present and non-empty. */
  predicate Truthy(o: Option<string>)
  {
    o.Some? && o.value != ""
  }

  // ---------------------------------------------------------------------------
  // Accumulating tool calls from fragments
  // ---------------------------------------------------------------------------

  /** The argument text a fragment contributes ("" when it has none). */
  function Piece(f: Fragment): string
  {
    if f.call.Some? then OrEmpty(f.call.value.arguments) else ""
  }

  /** The record a fragment opens: absent fields become "". */
  function Opened(f: Fragment): ToolCall
    requires f.call.Some?
  {
    ToolCall(OrEmpty(f.id), OrEmpty(f.kind), OrEmpty(f.call.value.name), Piece(f))
  }

  /**
   * One fragment. An index at or past the end of the list appends one new record
   * (at the end, whatever the index says); it raises when the fragment has no
   * `function` part. An index inside the list only extends that record's arguments.
   */
  function AbsorbFragment(calls: seq<ToolCall>, f: Fragment): (r: Result<seq<ToolCall>, string>)
    ensures f.index >= |calls| && f.call.None? ==> r == Failure(NoFunctionError)
    ensures f.index >= |calls| && f.call.Some? ==> r == Success(calls + [Opened(f)])
    ensures f.index < |calls| ==>
              && r.Success? && |r.value| == |calls|
              && (forall i :: 0 <= i < |calls| ==>
                    && r.value[i].id == calls[i].id
                    && r.value[i].kind == calls[i].kind
                    && r.value[i].name == calls[i].name
                    && r.value[i].arguments == calls[i].arguments + (if i == f.index then Piece(f) else ""))
  {
    if f.index >= |calls| then
      match f.call
      case None => Failure(NoFunctionError)
      case Some(_) => Success(calls + [Opened(f)])
    else if f.call.Some? && Truthy(f.call.value.arguments) then
      var c := calls[f.index];
      Success(calls[f.index := c.(arguments := c.arguments + f.call.value.arguments.value)])
    else
      Success(calls)
  }

  /** The fragments of one delta, in order; the first exception stops the rest. */
  function AbsorbFragments(calls: seq<ToolCall>, fs: seq<Fragment>): Result<seq<ToolCall>, string>
    decreases |fs|
  {
    if fs == [] then Success(calls)
    else match AbsorbFragment(calls, fs[0])
      case Failure(e) => Failure(e)
      case Success(next) => AbsorbFragments(next, fs[1..])
  }

  // ---------------------------------------------------------------------------
  // The turn, step by step
  // ---------------------------------------------------------------------------

  /**
   * The orchestrator's local state: `collected_content`, `current_tool_calls`, the
   * working transcript `messages`, and the events yielded so far.
   */
  datatype TurnState = TurnState(content: string, calls: seq<ToolCall>, messages: seq<Message>, events: seq<Event>)

  /**
   * A turn in progress, or one that raised: then only what it had yielded, the
   * transcript it had built and the exception's message still matter.
   */
  datatype Progress =
    | Running(st: TurnState)
    | Raised(events: seq<Event>, messages: seq<Message>, error: string)

  /** The state a turn starts from: a fresh transcript, the history followed by the user message. */
  function Start(query: string, history: seq<Message>): TurnState
  {
    TurnState("", [], history + [User(query)], [])
  }

  /** A delta's text, if any, is collected and yielded as one chunk of just that text. */
  function WithText(st: TurnState, d: Delta): TurnState
  {
    if Truthy(d.content) then
      st.(content := st.content + d.content.value, events := st.events + [ChunkEvent(d.content.value)])
    else st
  }

  /** One delta: its text first, then its fragments. */
  function AbsorbDelta(st: TurnState, d: Delta): Progress
  {
    var st1 := WithText(st, d);
    match AbsorbFragments(st1.calls, d.toolCalls)
    case Success(calls) => Running(st1.(calls := calls))
    case Failure(e) => Raised(st1.events, st1.messages, e)
  }

  /** The remaining deltas, from a given point of the turn. */
  function StreamFrom(p: Progress, deltas: seq<Delta>): Progress
    decreases |deltas|
  {
    if deltas == [] || p.Raised? then p
    else StreamFrom(AbsorbDelta(p.st, deltas[0]), deltas[1..])
  }

  /** The stream's own exception, raised once its deltas are consumed. */
  function EndOfStream(p: Progress, failure: Option<string>): Progress
  {
    if p.Running? && failure.Some? then Raised(p.st.events, p.st.messages, failure.value) else p
  }

  /** The labels of the arguments left blank or set to the placeholder `required`. */
  function MissingArguments(args: map<string, string>): set<string>
  {
    set k | k in args && (args[k] == "" || args[k] == "required") :: Tools.DisplayName(k)
  }

  /**
   * One pending call. Unparseable arguments and arguments with a missing value are
   * skipped without a trace; parsed JSON that is not an object raises. Otherwise the
   * call announces the tool, runs it, reports its output and appends the assistant
   * message carrying the call followed by the tool message answering it.
   */
  function ToolStep(env: Env, st: TurnState, c: ToolCall): (r: Progress)
    ensures env.parse(c.arguments).Malformed? ==> r == Running(st)
    ensures env.parse(c.arguments).Object? && MissingArguments(env.parse(c.arguments).args) != {} ==> r == Running(st)
    ensures env.parse(c.arguments).NotAnObject? ==>
              r == Raised(st.events, st.messages, NoItemsError(env.parse(c.arguments).typeName))
    ensures env.parse(c.arguments).Object? && MissingArguments(env.parse(c.arguments).args) == {} ==>
              match Tools.Execute(c.name, env.parse(c.arguments).args, env.oracles)
              case Failure(e) => r == Raised(st.events + [ToolUseEvent(c.name)], st.messages, e)
              case Success(out) =>
                r == Running(st.(events := st.events + [ToolUseEvent(c.name), ToolOutputEvent(env.dumps, c.name, out)],
                                 messages := st.messages + [Assistant(None, [c]), ToolResult(c.id, c.name, env.dumps(out))]))
  {
    match env.parse(c.arguments)
    case Malformed => Running(st)
    case NotAnObject(t) => Raised(st.events, st.messages, NoItemsError(t))
    case Object(args) =>
      if MissingArguments(args) != {} then Running(st)
      else
        var announced := st.events + [ToolUseEvent(c.name)];
        match Tools.Execute(c.name, args, env.oracles)
        case Failure(e) => Raised(announced, st.messages, e)
        case Success(out) =>
          Running(st.(events := announced + [ToolOutputEvent(env.dumps, c.name, out)],
                      messages := st.messages + [Assistant(None, [c]), ToolResult(c.id, c.name, env.dumps(out))]))
  }

  /** The remaining pending calls, in list order. */
  function ToolsFrom(env: Env, p: Progress, calls: seq<ToolCall>): Progress
    decreases |calls|
  {
    if calls == [] || p.Raised? then p
    else ToolsFrom(env, ToolStep(env, p.st, calls[0]), calls[1..])
  }

  /**
   * The second completion, requested whenever some call was assembled (even if every
   * call was skipped); its text, when non-empty, is yielded as one chunk.
   */
  function FollowUp(env: Env, p: Progress): Progress
  {
    if p.Raised? || p.st.calls == [] then p
    else match env.followUp(p.st.messages)
      case Failure(e) => Raised(p.st.events, p.st.messages, e)
      case Success(reply) =>
        Running(if Truthy(reply) then p.st.(events := p.st.events + [ChunkEvent(reply.value)]) else p.st)
  }

  /** Where the try block of a turn ends up. */
  function FinalProgress(query: string, history: seq<Message>, stream: ProviderStream, env: Env): Progress
  {
    var streamed := EndOfStream(StreamFrom(Running(Start(query, history)), stream.deltas), stream.failure);
    FollowUp(env, ToolsFrom(env, streamed, if streamed.Running? then streamed.st.calls else []))
  }

  /** The closing events: `end`, preceded by the error chunk when the turn raised. */
  function Finish(p: Progress): seq<Event>
  {
    match p
    case Running(st) => st.events + [EndEvent()]
    case Raised(evs, _, e) => evs + [ChunkEvent(ErrorPrefix + e), EndEvent()]
  }

  function FinalMessages(p: Progress): seq<Message>
  {
    match p
    case Running(st) => st.messages
    case Raised(_, msgs, _) => msgs
  }

  /** What a turn yields, and the working transcript it leaves. */
  datatype Reply = Reply(events: seq<Event>, messages: seq<Message>)

  function Turn(query: string, history: seq<Message>, stream: ProviderStream, env: Env): Reply
  {
    var p := FinalProgress(query, history, stream, env);
    Reply(Finish(p), FinalMessages(p))
  }

  // ---------------------------------------------------------------------------
  // The orchestrator
  // ---------------------------------------------------------------------------

  /** The progress a set of local variables stands for, `raised` holding a caught exception. */
  function AsProgress(st: TurnState, raised: Option<string>): Progress
  {
    if raised.Some? then Raised(st.events, st.messages, raised.value) else Running(st)
  }

  /** The inner loop over one delta's fragments, updating the pending calls in place. */
  method AccumulateFragments(calls: seq<ToolCall>, fs: seq<Fragment>) returns (pending: seq<ToolCall>, raised: Option<string>)
    ensures AbsorbFragments(calls, fs) == if raised.Some? then Failure(raised.value) else Success(pending)
  {
    pending, raised := calls, None;
    var j := 0;
    while j < |fs|
      invariant 0 <= j <= |fs|
      invariant AbsorbFragments(pending, fs[j..]) == AbsorbFragments(calls, fs)
    {
      var fragment := fs[j];
      assert fs[j..][0] == fragment && fs[j..][1..] == fs[j + 1..];
      if fragment.index >= |pending| {
        if fragment.call.None? {
          raised := Some(NoFunctionError);
          return;
        }
        var fn := fragment.call.value;
        pending := pending + [ToolCall(OrEmpty(fragment.id), OrEmpty(fragment.kind), OrEmpty(fn.name), OrEmpty(fn.arguments))];
      } else if fragment.call.Some? && Truthy(fragment.call.value.arguments) {
        var c := pending[fragment.index];
        pending := pending[fragment.index := c.(arguments := c.arguments + fragment.call.value.arguments.value)];
      }
      j := j + 1;
    }
  }

  /**
   * The loop over the provider's stream: text is collected and yielded as it comes,
   * fragments are accumulated; the stream's own exception is raised at its end.
   */
  method ConsumeStream(query: string, history: seq<Message>, stream: ProviderStream)
    returns (content: string, calls: seq<ToolCall>, events: seq<Event>, raised: Option<string>)
    ensures AsProgress(TurnState(content, calls, history + [User(query)], events), raised)
            == EndOfStream(StreamFrom(Running(Start(query, history)), stream.deltas), stream.failure)
  {
    var messages := history + [User(query)];
    content, calls, events, raised := "", [], [], None;
    var i := 0;
    while i < |stream.deltas|
      invariant 0 <= i <= |stream.deltas|
      invariant StreamFrom(Running(TurnState(content, calls, messages, events)), stream.deltas[i..])
                == StreamFrom(Running(Start(query, history)), stream.deltas)
    {
      var delta := stream.deltas[i];
      ghost var atDelta := TurnState(content, calls, messages, events);
      assert stream.deltas[i..][0] == delta && stream.deltas[i..][1..] == stream.deltas[i + 1..];
      if delta.content.Some? && delta.content.value != "" {
        content := content + delta.content.value;
        events := events + [ChunkEvent(delta.content.value)];
      }
      assert TurnState(content, calls, messages, events) == WithText(atDelta, delta);
      calls, raised := AccumulateFragments(calls, delta.toolCalls);
      if raised.Some? {
        assert AbsorbDelta(atDelta, delta) == Raised(events, messages, raised.value);
        return;
      }
      assert AbsorbDelta(atDelta, delta) == Running(TurnState(content, calls, messages, events));
      i := i + 1;
    }
    raised := stream.failure;
  }

  /** The loop over the pending calls, in list order. */
  method RunPendingCalls(env: Env, streamed: TurnState)
    returns (events: seq<Event>, messages: seq<Message>, raised: Option<string>)
    ensures AsProgress(streamed.(events := events, messages := messages), raised)
            == ToolsFrom(env, Running(streamed), streamed.calls)
  {
    events, messages, raised := streamed.events, streamed.messages, None;
    var calls := streamed.calls;
    var k := 0;
    while k < |calls|
      invariant 0 <= k <= |calls|
      invariant ToolsFrom(env, Running(streamed.(events := events, messages := messages)), calls[k..])
                == ToolsFrom(env, Running(streamed), calls)
    {
      var call := calls[k];
      ghost var atCall := streamed.(events := events, messages := messages);
      assert calls[k..][0] == call && calls[k..][1..] == calls[k + 1..];
      var parsed := env.parse(call.arguments);
      if parsed.NotAnObject? {
        raised := Some(NoItemsError(parsed.typeName));
        assert ToolStep(env, atCall, call) == AsProgress(atCall, raised);
        return;
      }
      if parsed.Object? && MissingArguments(parsed.args) == {} {
        events := events + [ToolUseEvent(call.name)];
        var result := Tools.Invoke(call.name, parsed.args, env.oracles);
        if result.Failure? {
          raised := Some(result.error);
          assert ToolStep(env, atCall, call) == Raised(events, messages, result.error);
          return;
        }
        events := events + [ToolOutputEvent(env.dumps, call.name, result.value)];
        messages := messages + [Assistant(None, [call]), ToolResult(call.id, call.name, env.dumps(result.value))];
      }
      assert ToolStep(env, atCall, call) == Running(streamed.(events := events, messages := messages));
      k := k + 1;
    }
  }

  /**
   * `process_query`. Each phase reports an exception through `raised`; the handler
   * at the end turns it into one error chunk, and `end` always closes the events.
   * The caller's history is only read: the transcript is a new list.
   */
  method ProcessQuery(query: string, history: seq<Message>, stream: ProviderStream, env: Env)
    returns (events: seq<Event>, messages: seq<Message>)
    ensures Reply(events, messages) == Turn(query, history, stream, env)
  {
    messages := history + [User(query)];
    var content, calls, raised;
    content, calls, events, raised := ConsumeStream(query, history, stream);
    if raised.None? {
      var streamed := TurnState(content, calls, messages, events);
      events, messages, raised := RunPendingCalls(env, streamed);
      if raised.None? && calls != [] {
        var reply := env.followUp(messages);
        if reply.Failure? {
          raised := Some(reply.error);
        } else if reply.value.Some? && reply.value.value != "" {
          events := events + [ChunkEvent(reply.value.value)];
        }
      }
    }
    if raised.Some? {
      events := events + [ChunkEvent(ErrorPrefix + raised.value)];
    }
    events := events + [EndEvent()];
  }
}
