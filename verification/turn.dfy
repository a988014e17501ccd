/**
 * What every turn of the orchestrator (backend/llm.py) guarantees, proved about the
 * specification functions of module Llm, which ProcessQuery is proved to follow.
 */
module TurnProperties {
  import opened Wrappers
  import opened Json
  import opened Stream
  import opened Llm
  import Tools
  import Weather

  /** What a turn has yielded so far, whether or not it raised. */
  function EventsOf(p: Progress): seq<Event>
  {
    if p.Running? then p.st.events else p.events
  }

  /** The working transcript so far, whether or not the turn raised. */
  function MessagesOf(p: Progress): seq<Message>
  {
    if p.Running? then p.st.messages else p.messages
  }

  predicate AllChunks(evs: seq<Event>)
  {
    forall i :: 0 <= i < |evs| ==> evs[i].event == ChunkTag
  }

  predicate NoEnd(evs: seq<Event>)
  {
    forall i :: 0 <= i < |evs| ==> evs[i].event != EndTag
  }

  /** The payloads of a list of events, concatenated in order (what a client displays of chunks). */
  function TextOf(evs: seq<Event>): string
  {
    if evs == [] then "" else TextOf(evs[..|evs| - 1]) + evs[|evs| - 1].data
  }

  /** The text a list of deltas carries, concatenated in order. */
  function ContentOf(deltas: seq<Delta>): string
  {
    if deltas == [] then "" else OrEmpty(deltas[0].content) + ContentOf(deltas[1..])
  }

  /**
   * Tool exchanges: an assistant message with no text carrying exactly one call,
   * followed by the tool message answering that call by its id and name, repeated.
   */
  predicate Exchanges(tail: seq<Message>)
    decreases |tail|
  {
    tail == [] ||
    (&& |tail| >= 2
     && tail[0].Assistant? && tail[0].reply.None? && |tail[0].toolCalls| == 1
     && tail[1].ToolResult?
     && tail[1].toolCallId == tail[0].toolCalls[0].id
     && tail[1].name == tail[0].toolCalls[0].name
     && Exchanges(tail[2..]))
  }

  /**
   * During the stream the transcript is untouched, only chunks are yielded, and the
   * collected content is exactly the text of the chunks yielded so far.
   */
  predicate Echoed(p: Progress, transcript: seq<Message>)
  {
    && MessagesOf(p) == transcript
    && AllChunks(EventsOf(p))
    && (p.Running? ==> p.st.content == TextOf(p.st.events))
  }

  /** One delta's text keeps the collected content equal to the text yielded. */
  lemma WithTextEchoes(st: TurnState, d: Delta, transcript: seq<Message>)
    requires Echoed(Running(st), transcript)
    ensures var st1 := WithText(st, d);
            && Echoed(Running(st1), transcript)
            && st1.content == st.content + OrEmpty(d.content)
            && st1.calls == st.calls
    ensures Truthy(d.content) ==> WithText(st, d).events == st.events + [ChunkEvent(d.content.value)]
    ensures !Truthy(d.content) ==> WithText(st, d) == st
  {
    if Truthy(d.content) {
      var evs := st.events + [ChunkEvent(d.content.value)];
      assert evs[..|evs| - 1] == st.events;
    }
  }

  lemma {:induction false} StreamEchoes(p: Progress, deltas: seq<Delta>, transcript: seq<Message>)
    requires Echoed(p, transcript)
    ensures Echoed(StreamFrom(p, deltas), transcript)
    decreases |deltas|
  {
    if deltas != [] && p.Running? {
      WithTextEchoes(p.st, deltas[0], transcript);
      StreamEchoes(AbsorbDelta(p.st, deltas[0]), deltas[1..], transcript);
    }
  }

  /**
   * One pending call yields no `end`; it either leaves the transcript as it was or
   * appends one exchange for that call, and it never changes the pending calls.
   */
  lemma ToolStepShape(env: Env, st: TurnState, c: ToolCall)
    requires NoEnd(st.events)
    ensures var s := ToolStep(env, st, c);
            && NoEnd(EventsOf(s))
            && (s.Running? ==> s.st.calls == st.calls && s.st.content == st.content)
            && (MessagesOf(s) == st.messages
                || (s.Running? && exists out: string ::
                      MessagesOf(s) == st.messages + [Assistant(None, [c]), ToolResult(c.id, c.name, out)]))
  {
    var s := ToolStep(env, st, c);
    var parsed := env.parse(c.arguments);
    if parsed.Object? && MissingArguments(parsed.args) == {} {
      var r := Tools.Execute(c.name, parsed.args, env.oracles);
      if r.Success? {
        var out := env.dumps(r.value);
        assert MessagesOf(s) == st.messages + [Assistant(None, [c]), ToolResult(c.id, c.name, out)];
        assert EventsOf(s) == st.events + [ToolUseEvent(c.name), ToolOutputEvent(env.dumps, c.name, r.value)];
      } else {
        assert EventsOf(s) == st.events + [ToolUseEvent(c.name)];
      }
    }
  }

  /** Exchanges followed by exchanges are exchanges. */
  lemma ExchangeThen(m: seq<Message>, pair: seq<Message>, whole: seq<Message>)
    requires |pair| == 2 && pair[0].Assistant? && pair[0].reply.None? && |pair[0].toolCalls| == 1
    requires pair[1].ToolResult? && pair[1].toolCallId == pair[0].toolCalls[0].id
    requires pair[1].name == pair[0].toolCalls[0].name
    requires |whole| >= |m| + 2 && whole[..|m| + 2] == m + pair && Exchanges(whole[|m| + 2..])
    ensures whole[..|m|] == m && Exchanges(whole[|m|..])
  {
    var tail := whole[|m|..];
    assert tail[..2] == pair;
    assert tail[2..] == whole[|m| + 2..];
    assert whole[..|m|] == (m + pair)[..|m|];
  }

  /** The pending-call phase yields no `end`, and only appends whole tool exchanges to the transcript. */
  lemma {:induction false} ToolsAppendExchanges(env: Env, p: Progress, calls: seq<ToolCall>)
    requires NoEnd(EventsOf(p))
    ensures var q := ToolsFrom(env, p, calls);
            && NoEnd(EventsOf(q))
            && |MessagesOf(p)| <= |MessagesOf(q)|
            && MessagesOf(q)[..|MessagesOf(p)|] == MessagesOf(p)
            && Exchanges(MessagesOf(q)[|MessagesOf(p)|..])
            && (p.Running? && q.Running? ==> q.st.calls == p.st.calls && q.st.content == p.st.content)
    decreases |calls|
  {
    var q := ToolsFrom(env, p, calls);
    var m := MessagesOf(p);
    if calls == [] || p.Raised? {
      assert q == p;
      assert MessagesOf(q)[|m|..] == [];
    } else {
      var c := calls[0];
      var s := ToolStep(env, p.st, c);
      assert q == ToolsFrom(env, s, calls[1..]);
      ToolStepShape(env, p.st, c);
      ToolsAppendExchanges(env, s, calls[1..]);
      if MessagesOf(s) != m {
        var out: string :| MessagesOf(s) == m + [Assistant(None, [c]), ToolResult(c.id, c.name, out)];
        ExchangeThen(m, [Assistant(None, [c]), ToolResult(c.id, c.name, out)], MessagesOf(q));
      }
    }
  }

  /** The stream phase then the pending-call phase, as FinalProgress composes them. */
  lemma BeforeFollowUp(query: string, history: seq<Message>, stream: ProviderStream, env: Env)
    ensures var streamed := EndOfStream(StreamFrom(Running(Start(query, history)), stream.deltas), stream.failure);
            var q := ToolsFrom(env, streamed, if streamed.Running? then streamed.st.calls else []);
            && NoEnd(EventsOf(q))
            && |MessagesOf(q)| >= |history| + 1
            && MessagesOf(q)[..|history| + 1] == history + [User(query)]
            && Exchanges(MessagesOf(q)[|history| + 1..])
            && (q.Running? ==> q.st.calls == (if streamed.Running? then streamed.st.calls else []))
  {
    var transcript := history + [User(query)];
    assert Echoed(Running(Start(query, history)), transcript);
    StreamEchoes(Running(Start(query, history)), stream.deltas, transcript);
    var streamed := EndOfStream(StreamFrom(Running(Start(query, history)), stream.deltas), stream.failure);
    assert MessagesOf(streamed) == transcript;
    assert forall i :: 0 <= i < |EventsOf(streamed)| ==> EventsOf(streamed)[i].event == ChunkTag;
    ToolsAppendExchanges(env, streamed, if streamed.Running? then streamed.st.calls else []);
  }

  /** Whatever happens, a turn's events end with exactly one `end`, and nothing follows it. */
  lemma EndClosesEveryTurn(query: string, history: seq<Message>, stream: ProviderStream, env: Env)
    ensures var evs := Turn(query, history, stream, env).events;
            && |evs| >= 1 && evs[|evs| - 1] == EndEvent()
            && NoEnd(evs[..|evs| - 1])
  {
    BeforeFollowUp(query, history, stream, env);
    var p := FinalProgress(query, history, stream, env);
    assert NoEnd(EventsOf(p));
    var evs := Finish(p);
    if p.Raised? {
      assert evs[..|evs| - 1] == EventsOf(p) + [ChunkEvent(ErrorPrefix + p.error)];
    } else {
      assert evs[..|evs| - 1] == EventsOf(p);
    }
  }

  /**
   * The transcript a turn leaves starts with the caller's history and the user's
   * message, and continues with whole tool exchanges only: every tool message
   * directly follows the assistant message carrying the call it answers.
   */
  lemma TranscriptShape(query: string, history: seq<Message>, stream: ProviderStream, env: Env)
    ensures var msgs := Turn(query, history, stream, env).messages;
            && |msgs| >= |history| + 1
            && msgs[..|history| + 1] == history + [User(query)]
            && Exchanges(msgs[|history| + 1..])
  {
    BeforeFollowUp(query, history, stream, env);
  }

  /**
   * The follow-up request: whenever some call was assembled and nothing raised,
   * even if every call was skipped, the provider is asked once more with the
   * working transcript; its text, when non-empty, is the one chunk yielded before
   * `end`, and a failure closes the turn with the error chunk instead.
   */
  lemma FollowUpClose(query: string, history: seq<Message>, stream: ProviderStream, env: Env)
    ensures var streamed := EndOfStream(StreamFrom(Running(Start(query, history)), stream.deltas), stream.failure);
            var q := ToolsFrom(env, streamed, if streamed.Running? then streamed.st.calls else []);
            var evs := Turn(query, history, stream, env).events;
            q.Running? && q.st.calls != [] ==>
              match env.followUp(q.st.messages)
              case Success(answer) =>
                evs == q.st.events + (if Truthy(answer) then [ChunkEvent(answer.value)] else []) + [EndEvent()]
              case Failure(e) =>
                evs == q.st.events + [ChunkEvent(ErrorPrefix + e), EndEvent()]
  {
  }

  /** A turn with no assembled call never asks again: what it streamed, then `end`. */
  lemma NoCallsNoFollowUp(query: string, history: seq<Message>, stream: ProviderStream, env: Env)
    ensures var streamed := EndOfStream(StreamFrom(Running(Start(query, history)), stream.deltas), stream.failure);
            streamed.Running? && streamed.st.calls == [] ==>
              Turn(query, history, stream, env) == Reply(streamed.st.events + [EndEvent()], streamed.st.messages)
  {
  }

  /**
   * Every exception a turn catches, wherever it was raised (mid-stream, a fragment
   * without a `function` part, non-object arguments, a tool's KeyError or TypeError,
   * the follow-up), closes the turn the same way: the events yielded so far, none of
   * them `end`, then one chunk carrying the error message after "An error occurred: ",
   * then `end`; the transcript is the one built up to the exception.
   */
  lemma RaisedClose(query: string, history: seq<Message>, stream: ProviderStream, env: Env)
    ensures var p := FinalProgress(query, history, stream, env);
            p.Raised? ==>
              && NoEnd(p.events)
              && Turn(query, history, stream, env)
                 == Reply(p.events + [ChunkEvent(ErrorPrefix + p.error), EndEvent()], p.messages)
  {
    BeforeFollowUp(query, history, stream, env);
  }

  /** A provider that fails before streaming anything yields one error chunk, then `end`. */
  lemma OpeningFailure(query: string, history: seq<Message>, error: string, env: Env)
    ensures Turn(query, history, ProviderStream([], Some(error)), env)
            == Reply([ChunkEvent("An error occurred: " + error), EndEvent()], history + [User(query)])
  {
  }

  /** A stream with no tool calls and no failure never asks again: its text, chunk by chunk, then `end`. */
  lemma {:induction false} TextOnlyStream(p: Progress, deltas: seq<Delta>, transcript: seq<Message>)
    requires p.Running? && p.st.calls == [] && Echoed(p, transcript)
    requires forall i :: 0 <= i < |deltas| ==> deltas[i].toolCalls == []
    ensures var q := StreamFrom(p, deltas);
            && q.Running? && q.st.calls == [] && Echoed(q, transcript)
            && q.st.content == p.st.content + ContentOf(deltas)
    decreases |deltas|
  {
    if deltas != [] {
      var d, rest := deltas[0], deltas[1..];
      TextOnlyDelta(p.st, d, transcript);
      var q1 := AbsorbDelta(p.st, d);
      assert StreamFrom(p, deltas) == StreamFrom(q1, rest);
      TextOnlyStream(q1, rest, transcript);
      var q := StreamFrom(q1, rest);
      var before, piece, after := p.st.content, OrEmpty(d.content), ContentOf(rest);
      assert q1.st.content == before + piece && q.st.content == q1.st.content + after;
      assert ContentOf(deltas) == piece + after;
      Regroup(before, piece, after);
    }
  }

  lemma Regroup(a: string, b: string, c: string)
    ensures (a + b) + c == a + (b + c)
  {
  }

  /** One delta without fragments: its text is collected and echoed, and no call appears. */
  lemma TextOnlyDelta(st: TurnState, d: Delta, transcript: seq<Message>)
    requires st.calls == [] && Echoed(Running(st), transcript) && d.toolCalls == []
    ensures var q := AbsorbDelta(st, d);
            && q.Running? && q.st.calls == [] && Echoed(q, transcript)
            && q.st.content == st.content + OrEmpty(d.content)
  {
    WithTextEchoes(st, d, transcript);
    var st1 := WithText(st, d);
    assert AbsorbFragments(st1.calls, d.toolCalls) == Success(st1.calls);
    assert AbsorbDelta(st, d) == Running(st1);
  }

  /**
   * A text-only turn: the text of the chunks yielded before `end` is the text the
   * provider streamed, and the transcript is the history plus the user's message.
   */
  lemma TextOnlyTurn(query: string, history: seq<Message>, deltas: seq<Delta>, env: Env)
    requires forall i :: 0 <= i < |deltas| ==> deltas[i].toolCalls == []
    ensures var r := Turn(query, history, ProviderStream(deltas, None), env);
            && |r.events| >= 1 && r.events[|r.events| - 1] == EndEvent()
            && AllChunks(r.events[..|r.events| - 1])
            && TextOf(r.events[..|r.events| - 1]) == ContentOf(deltas)
            && r.messages == history + [User(query)]
  {
    var start := Running(Start(query, history));
    TextOnlyStream(start, deltas, history + [User(query)]);
    var q := StreamFrom(start, deltas);
    assert FinalProgress(query, history, ProviderStream(deltas, None), env) == q;
    assert Finish(q)[..|Finish(q)| - 1] == q.st.events;
  }

  /** The argument text a list of fragments contributes, in order. */
  function Pieces(fs: seq<Fragment>): string
  {
    if fs == [] then "" else Piece(fs[0]) + Pieces(fs[1..])
  }

  /**
   * Fragments continuing an existing call only concatenate their argument text onto
   * it, in order; every other call, and that call's id, type and name, stay as they were.
   */
  lemma {:induction false} ContinuationsConcatenate(calls: seq<ToolCall>, fs: seq<Fragment>, i: nat)
    requires i < |calls|
    requires forall k :: 0 <= k < |fs| ==> fs[k].index == i
    ensures AbsorbFragments(calls, fs) == Success(calls[i := calls[i].(arguments := calls[i].arguments + Pieces(fs))])
    decreases |fs|
  {
    if fs == [] {
      assert Pieces(fs) == "";
      assert AbsorbFragments(calls, fs) == Success(calls);
      assert calls[i].arguments + "" == calls[i].arguments;
      assert calls[i := calls[i].(arguments := calls[i].arguments + "")] == calls;
    } else {
      var f := fs[0];
      var next := calls[i := calls[i].(arguments := calls[i].arguments + Piece(f))];
      assert f.index == i;
      if f.call.Some? && Truthy(f.call.value.arguments) {
        assert Piece(f) == f.call.value.arguments.value;
        assert AbsorbFragment(calls, f) == Success(next);
      } else {
        assert Piece(f) == "" && calls[i].arguments + "" == calls[i].arguments;
        assert next == calls;
      }
      assert AbsorbFragments(calls, fs) == AbsorbFragments(next, fs[1..]);
      ContinuationsConcatenate(next, fs[1..], i);
      var whole := calls[i].(arguments := calls[i].arguments + Pieces(fs));
      assert next[i].(arguments := next[i].arguments + Pieces(fs[1..])) == whole;
      assert next[i := whole] == calls[i := whole];
    }
  }

  /**
   * A call streamed as an opening fragment and continuations: it keeps the opening
   * fragment's id, type and name (even when empty) and all the fragments' argument text.
   */
  lemma {:induction false} OneCallAssembled(first: Fragment, rest: seq<Fragment>)
    requires first.index == 0 && first.call.Some?
    requires forall k :: 0 <= k < |rest| ==> rest[k].index == 0
    ensures AbsorbFragments([], [first] + rest)
            == Success([ToolCall(OrEmpty(first.id), OrEmpty(first.kind), OrEmpty(first.call.value.name),
                                 Piece(first) + Pieces(rest))])
  {
    var fs := [first] + rest;
    var none: seq<ToolCall> := [];
    assert fs[0] == first && fs[1..] == rest;
    assert none + [Opened(first)] == [Opened(first)];
    assert AbsorbFragments(none, fs) == AbsorbFragments([Opened(first)], rest);
    ContinuationsConcatenate([Opened(first)], rest, 0);
    var c := Opened(first);
    assert [c][0 := c.(arguments := c.arguments + Pieces(rest))] == [c.(arguments := c.arguments + Pieces(rest))];
  }

  /** Continues a fold result with more fragments; an exception already raised stays raised. */
  function Then(r: Result<seq<ToolCall>, string>, fs: seq<Fragment>): Result<seq<ToolCall>, string>
  {
    match r
    case Failure(e) => Failure(e)
    case Success(calls) => AbsorbFragments(calls, fs)
  }

  /** Folding two runs of fragments is folding the first, then the second from its result. */
  lemma {:induction false} AbsorbFragmentsAppend(calls: seq<ToolCall>, a: seq<Fragment>, b: seq<Fragment>)
    ensures AbsorbFragments(calls, a + b) == Then(AbsorbFragments(calls, a), b)
    decreases |a|
  {
    if a == [] {
      assert a + b == b;
    } else {
      assert (a + b)[0] == a[0] && (a + b)[1..] == a[1..] + b;
      match AbsorbFragment(calls, a[0])
      case Failure(_) =>
      case Success(next) => AbsorbFragmentsAppend(next, a[1..], b);
    }
  }

  /** Every fragment of a stream, delta after delta, in order. */
  function AllFragments(deltas: seq<Delta>): seq<Fragment>
  {
    if deltas == [] then [] else deltas[0].toolCalls + AllFragments(deltas[1..])
  }

  /** The pending calls of a turn in progress, or the exception it raised. */
  function CallsOf(p: Progress): Result<seq<ToolCall>, string>
  {
    if p.Running? then Success(p.st.calls) else Failure(p.error)
  }

  /**
   * The calls are accumulated across the whole stream, not per delta: what the stream
   * leaves (calls or exception) is the fragment fold over all its fragments in order.
   */
  lemma {:induction false} StreamCalls(p: Progress, deltas: seq<Delta>)
    ensures CallsOf(StreamFrom(p, deltas)) == Then(CallsOf(p), AllFragments(deltas))
    decreases |deltas|
  {
    if deltas == [] {
      if p.Running? {
        assert AbsorbFragments(p.st.calls, []) == Success(p.st.calls);
      }
    } else if p.Running? {
      var d := deltas[0];
      var q1 := AbsorbDelta(p.st, d);
      assert WithText(p.st, d).calls == p.st.calls;
      assert CallsOf(q1) == AbsorbFragments(p.st.calls, d.toolCalls);
      assert StreamFrom(p, deltas) == StreamFrom(q1, deltas[1..]);
      StreamCalls(q1, deltas[1..]);
      AbsorbFragmentsAppend(p.st.calls, d.toolCalls, AllFragments(deltas[1..]));
    }
  }

  /**
   * Fragments whose indices arrive contiguously: each index is at most the number of
   * calls opened so far, and a fragment opening a new call has a `function` part.
   */
  predicate Contiguous(n: nat, fs: seq<Fragment>)
    decreases |fs|
  {
    fs == [] ||
    (&& fs[0].index <= n
     && (fs[0].index == n ==> fs[0].call.Some?)
     && Contiguous(if fs[0].index == n then n + 1 else n, fs[1..]))
  }

  /** How many calls are open after contiguous fragments, starting from n. */
  function Width(n: nat, fs: seq<Fragment>): nat
    decreases |fs|
  {
    if fs == [] then n else Width(if fs[0].index == n then n + 1 else n, fs[1..])
  }

  /** The argument text the fragments with index i carry, in order. */
  function PiecesAt(fs: seq<Fragment>, i: nat): string
    decreases |fs|
  {
    if fs == [] then "" else (if fs[0].index == i then Piece(fs[0]) else "") + PiecesAt(fs[1..], i)
  }

  /**
   * Contiguous fragments never raise. Every call already open keeps its id, type and
   * name, and each call's arguments end up as its earlier arguments ("" for a call the
   * fragments open) followed by the pieces of its own fragments, in order.
   */
  lemma {:induction false} CallsAssembled(calls: seq<ToolCall>, fs: seq<Fragment>)
    requires Contiguous(|calls|, fs)
    ensures AbsorbFragments(calls, fs).Success?
    ensures var out := AbsorbFragments(calls, fs).value;
            && |calls| <= |out| == Width(|calls|, fs)
            && (forall i :: 0 <= i < |calls| ==>
                  out[i].id == calls[i].id && out[i].kind == calls[i].kind && out[i].name == calls[i].name)
            && (forall i :: 0 <= i < |out| ==>
                  out[i].arguments == (if i < |calls| then calls[i].arguments else "") + PiecesAt(fs, i))
    decreases |fs|
  {
    if fs == [] {
      forall i | 0 <= i < |calls| ensures calls[i].arguments == calls[i].arguments + PiecesAt(fs, i) {
        assert calls[i].arguments + "" == calls[i].arguments;
      }
    } else {
      var f, rest := fs[0], fs[1..];
      var next := AbsorbFragment(calls, f).value;
      assert |next| == if f.index == |calls| then |calls| + 1 else |calls|;
      assert AbsorbFragments(calls, fs) == AbsorbFragments(next, rest);
      CallsAssembled(next, rest);
      var out := AbsorbFragments(next, rest).value;
      forall i | 0 <= i < |calls|
        ensures out[i].id == calls[i].id && out[i].kind == calls[i].kind && out[i].name == calls[i].name
      {
        assert next[i].id == calls[i].id && next[i].kind == calls[i].kind && next[i].name == calls[i].name;
      }
      forall i | 0 <= i < |out|
        ensures out[i].arguments == (if i < |calls| then calls[i].arguments else "") + PiecesAt(fs, i)
      {
        ArgumentsStep(calls, fs, next, out[i].arguments, i);
      }
    }
  }

  /** One fragment's contribution to call i's arguments, then the rest of the fragments'. */
  lemma ArgumentsStep(calls: seq<ToolCall>, fs: seq<Fragment>, next: seq<ToolCall>, args: string, i: nat)
    requires fs != [] && fs[0].index <= |calls| && (fs[0].index == |calls| ==> fs[0].call.Some?)
    requires AbsorbFragment(calls, fs[0]) == Success(next)
    requires args == (if i < |next| then next[i].arguments else "") + PiecesAt(fs[1..], i)
    ensures args == (if i < |calls| then calls[i].arguments else "") + PiecesAt(fs, i)
  {
    var f, later := fs[0], PiecesAt(fs[1..], i);
    var own := if f.index == i then Piece(f) else "";
    assert PiecesAt(fs, i) == own + later;
    if i < |calls| {
      assert next[i].arguments == calls[i].arguments + own;
      Regroup(calls[i].arguments, own, later);
    } else if i == |calls| && f.index == |calls| {
      assert next[i] == Opened(f);
      assert "" + (own + later) == own + later;
    } else {
      assert own == "";
      assert "" + later == later && "" + ("" + later) == later;
    }
  }

  /**
   * A whole stream whose fragments arrive contiguously, whatever the deltas they are
   * spread over: the stream does not raise, and each assembled call's arguments are the
   * pieces of its own fragments, concatenated in order across the stream.
   */
  lemma StreamArgumentsAssembled(st: TurnState, deltas: seq<Delta>)
    requires st.calls == [] && Contiguous(0, AllFragments(deltas))
    ensures var q := StreamFrom(Running(st), deltas);
            && q.Running?
            && |q.st.calls| == Width(0, AllFragments(deltas))
            && forall i :: 0 <= i < |q.st.calls| ==> q.st.calls[i].arguments == PiecesAt(AllFragments(deltas), i)
  {
    var fs := AllFragments(deltas);
    var q := StreamFrom(Running(st), deltas);
    StreamCalls(Running(st), deltas);
    assert CallsOf(q) == AbsorbFragments(st.calls, fs);
    CallsAssembled(st.calls, fs);
    var out := AbsorbFragments(st.calls, fs).value;
    assert q.Running? && q.st.calls == out;
    forall i | 0 <= i < |out| ensures out[i].arguments == PiecesAt(fs, i) {
      assert out[i].arguments == "" + PiecesAt(fs, i);
    }
  }

  /** A call whose arguments cannot be parsed, or leave a value blank, yields nothing and changes nothing. */
  lemma {:induction false} SkippedCallsLeaveNoTrace(env: Env, st: TurnState, calls: seq<ToolCall>)
    requires forall k :: 0 <= k < |calls| ==>
               env.parse(calls[k].arguments).Malformed?
               || (env.parse(calls[k].arguments).Object? && MissingArguments(env.parse(calls[k].arguments).args) != {})
    ensures ToolsFrom(env, Running(st), calls) == Running(st)
    decreases |calls|
  {
    if calls != [] {
      assert ToolStep(env, st, calls[0]) == Running(st);
      SkippedCallsLeaveNoTrace(env, st, calls[1..]);
    }
  }

  /**
   * Even when every assembled call is skipped, the turn still asks the provider once
   * more, and the answer's text is the only chunk before `end`.
   */
  lemma SkippedCallStillAsks(query: string, history: seq<Message>, opening: Fragment, env: Env, answer: string)
    requires opening.index == 0 && opening.call.Some?
    requires env.parse(Opened(opening).arguments).Malformed?
    requires env.followUp(history + [User(query)]) == Success(Some(answer)) && answer != ""
    ensures Turn(query, history, ProviderStream([Delta(None, [opening])], None), env)
            == Reply([ChunkEvent(answer), EndEvent()], history + [User(query)])
  {
    var st := Start(query, history);
    assert [opening][1..] == [];
    assert st.calls + [Opened(opening)] == [Opened(opening)];
    assert AbsorbFragment(st.calls, opening) == Success([Opened(opening)]);
    assert AbsorbFragments(st.calls, [opening]) == Success([Opened(opening)]);
    var streamed := st.(calls := [Opened(opening)]);
    assert StreamFrom(Running(st), [Delta(None, [opening])]) == Running(streamed);
    assert ToolStep(env, streamed, Opened(opening)) == Running(streamed);
    assert ToolsFrom(env, Running(streamed), [Opened(opening)]) == Running(streamed);
  }

  /**
   * A complete call naming a tool that does not exist announces it and then raises
   * KeyError: the turn ends with the error chunk quoting the name.
   */
  lemma UnknownToolRaises(env: Env, st: TurnState, c: ToolCall)
    requires c.name !in Tools.ToolFunctions
    requires env.parse(c.arguments).Object? && MissingArguments(env.parse(c.arguments).args) == {}
    ensures var p := ToolStep(env, st, c);
            && p == Raised(st.events + [ToolUseEvent(c.name)], st.messages, "'" + c.name + "'")
            && Finish(p) == st.events + [ToolUseEvent(c.name), ChunkEvent("An error occurred: '" + c.name + "'"), EndEvent()]
  {
    var message := "'" + c.name + "'";
    assert Tools.Execute(c.name, env.parse(c.arguments).args, env.oracles) == Failure(message);
    assert ErrorPrefix + message == "An error occurred: '" + c.name + "'";
    assert st.events + [ToolUseEvent(c.name)] + [ChunkEvent(ErrorPrefix + message), EndEvent()]
           == st.events + [ToolUseEvent(c.name), ChunkEvent(ErrorPrefix + message), EndEvent()];
  }

  /** A booking whose date was left blank is incomplete, so the call is skipped. */
  lemma BlankDateSkipped(env: Env, st: TurnState, c: ToolCall, args: map<string, string>)
    requires env.parse(c.arguments) == Object(args)
    requires "date" in args && args["date"] == ""
    ensures "date (YYYY-MM-DD)" in MissingArguments(args)
    ensures ToolStep(env, st, c) == Running(st)
  {
    assert Tools.DisplayName("date") == "date (YYYY-MM-DD)";
  }

  // A weather question, streamed as the provider typically splits it: the opening
  // fragment carries the id, type and name, the continuation the rest of the JSON.
  const WeatherOpening := Fragment(0, Some("call_1"), Some("function"), Some(FunctionPart(Some("get_weather"), Some("{\"city\": "))))
  const WeatherContinuation := Fragment(0, None, None, Some(FunctionPart(None, Some("\"Miami\"}"))))
  const WeatherDeltas := [Delta(None, [WeatherOpening]), Delta(None, [WeatherContinuation])]
  const WeatherCall := ToolCall("call_1", "function", "get_weather", "{\"city\": \"Miami\"}")
  const WeatherSentence := JStr("The weather in Miami is 30°C and it's rainy.")

  /** The two fragments assemble into one call with the whole argument text. */
  lemma WeatherCallAssembled(st: TurnState)
    requires st.calls == []
    ensures StreamFrom(Running(st), WeatherDeltas) == Running(st.(calls := [WeatherCall]))
  {
    var begun := ToolCall("call_1", "function", "get_weather", "{\"city\": ");
    var st1 := st.(calls := [begun]);
    assert [WeatherOpening][1..] == [] && [WeatherContinuation][1..] == [];
    assert Opened(WeatherOpening) == begun;
    assert st.calls + [begun] == [begun];
    assert AbsorbFragments(st.calls, [WeatherOpening]) == Success([begun]);
    assert AbsorbDelta(st, WeatherDeltas[0]) == Running(st1);
    assert "{\"city\": " + "\"Miami\"}" == "{\"city\": \"Miami\"}";
    assert [begun][0 := begun.(arguments := begun.arguments + "\"Miami\"}")] == [WeatherCall];
    assert AbsorbFragments(st1.calls, [WeatherContinuation]) == Success([WeatherCall]);
    assert AbsorbDelta(st1, WeatherDeltas[1]) == Running(st.(calls := [WeatherCall]));
    assert WeatherDeltas[1..] == [WeatherDeltas[1]] && [WeatherDeltas[1]][1..] == [];
    assert StreamFrom(Running(st1), [WeatherDeltas[1]]) == Running(st.(calls := [WeatherCall]));
  }

  /** Arguments with no blank and no placeholder value leave nothing missing. */
  lemma NothingMissing(args: map<string, string>)
    requires forall k :: k in args ==> args[k] != "" && args[k] != "required"
    ensures MissingArguments(args) == {}
  {
  }

  /** The assembled call is complete: the tool is announced, run, reported and recorded. */
  lemma WeatherCallRuns(env: Env, st: TurnState)
    requires env.parse(WeatherCall.arguments) == Object(map["city" := "Miami"])
    ensures ToolStep(env, st, WeatherCall)
            == Running(st.(events := st.events + [ToolUseEvent("get_weather"), ToolOutputEvent(env.dumps, "get_weather", WeatherSentence)],
                           messages := st.messages + [Assistant(None, [WeatherCall]), ToolResult("call_1", "get_weather", env.dumps(WeatherSentence))]))
  {
    Tools.WeatherCallAnswers("Miami", env.oracles);
    Weather.MiamiSentence();
    NothingMissing(map["city" := "Miami"]);
  }

  /**
   * The weather question answered end to end: the call streamed in two fragments is
   * run once, reported, recorded as one exchange, and the provider's answer follows.
   */
  lemma WeatherTurn(query: string, history: seq<Message>, env: Env, answer: string)
    requires env.parse(WeatherCall.arguments) == Object(map["city" := "Miami"])
    requires forall msgs :: env.followUp(msgs) == Success(Some(answer))
    requires answer != ""
    ensures Turn(query, history, ProviderStream(WeatherDeltas, None), env)
            == Reply([ToolUseEvent("get_weather"), ToolOutputEvent(env.dumps, "get_weather", WeatherSentence),
                      ChunkEvent(answer), EndEvent()],
                     history + [User(query), Assistant(None, [WeatherCall]),
                                ToolResult("call_1", "get_weather", env.dumps(WeatherSentence))])
  {
    var st := Start(query, history);
    WeatherCallAssembled(st);
    var streamed := st.(calls := [WeatherCall]);
    WeatherCallRuns(env, streamed);
    var ran := ToolStep(env, streamed, WeatherCall);
    assert ToolsFrom(env, Running(streamed), [WeatherCall]) == ran;
  }
}
