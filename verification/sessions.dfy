/**
 * The session bookkeeping of the `/query` handler (backend/main.py): a process-wide
 * map from session id to that session's stored messages. A request seeds a new
 * session with the system prompt, hands the last ten stored messages to the
 * orchestrator, stores the user's message, then forwards every event the
 * orchestrator yields and stores each chunk as an assistant message.
 */
module Sessions {
  import opened Wrappers
  import opened Stream
  import opened Llm

  const SystemPrompt :=
    "\nYou are Lex, a virtual sales assistant for SuperCar dealerships. Your role is to help customers with "
    + "information about weather, our luxury vehicles, schedule test drives, and provide dealership information.\n\n"
    + "IMPORTANT: If a user initiates a tool-based request without specifying required parameters (such as dates, "
    + "identification numbers, or location data), maintain empty string values for the corresponding argument fields "
    + "rather than attempting to infer or populate these values. Wait for the user to provide the necessary "
    + "information through follow-up interaction.\n"

  /** How many stored messages a turn sees. */
  const HistoryWindow := 10

  /** Python's `s[-n:]`: the last `n` messages, or all of them when there are fewer. */
  function Recent(s: seq<Message>, n: nat): (r: seq<Message>)
    ensures |r| == if |s| <= n then |s| else n
    ensures r == s[|s| - |r|..]
  {
    if |s| <= n then s else s[|s| - n..]
  }

  /** A session's stored messages, seeding an unknown session with the system prompt. */
  function Seeded(histories: map<string, seq<Message>>, sessionId: string): (h: seq<Message>)
    ensures sessionId in histories ==> h == histories[sessionId]
    ensures sessionId !in histories ==> h == [System(SystemPrompt)]
  {
    if sessionId in histories then histories[sessionId] else [System(SystemPrompt)]
  }

  /** The assistant messages stored for a list of events: one per chunk, carrying its payload. */
  function ChunkMessages(events: seq<Event>): seq<Message>
  {
    if events == [] then []
    else
      var e := events[|events| - 1];
      ChunkMessages(events[..|events| - 1]) + (if e.event == ChunkTag then [Assistant(Some(e.data), [])] else [])
  }

  /** What one request leaves in the store for its session. */
  function AfterQuery(histories: map<string, seq<Message>>, sessionId: string, query: string, events: seq<Event>): seq<Message>
  {
    Seeded(histories, sessionId) + [User(query)] + ChunkMessages(events)
  }

  class SessionStore {
    /** `conversation_histories`. */
    var histories: map<string, seq<Message>>

    constructor ()
      ensures histories == map[]
    {
      histories := map[];
    }

    /**
     * One `/query` request, its event stream run to completion. The turn sees the
     * last ten stored messages, taken before the user's message is stored.
     */
    method Query(sessionId: string, query: string, stream: ProviderStream, env: Env) returns (forwarded: seq<Event>)
      modifies this
      ensures var reply := Turn(query, Recent(Seeded(old(histories), sessionId), HistoryWindow), stream, env);
              && forwarded == reply.events
              && histories == old(histories)[sessionId := AfterQuery(old(histories), sessionId, query, reply.events)]
    {
      if sessionId !in histories {
        histories := histories[sessionId := [System(SystemPrompt)]];
      }
      var snapshot := Recent(histories[sessionId], HistoryWindow);
      histories := histories[sessionId := histories[sessionId] + [User(query)]];
      var events, _ := ProcessQuery(query, snapshot, stream, env);
      forwarded := Relay(sessionId, events);
    }

    /**
     * The event generator: every event is forwarded unchanged and in order, and
     * each chunk is stored as an assistant message as it passes.
     */
    method Relay(sessionId: string, events: seq<Event>) returns (forwarded: seq<Event>)
      requires sessionId in histories
      modifies this
      ensures forwarded == events
      ensures histories == old(histories)[sessionId := old(histories)[sessionId] + ChunkMessages(events)]
    {
      ghost var base := histories[sessionId];
      forwarded := [];
      var i := 0;
      assert base + ChunkMessages(events[..0]) == base;
      while i < |events|
        invariant 0 <= i <= |events|
        invariant forwarded == events[..i]
        invariant sessionId in histories && histories == old(histories)[sessionId := histories[sessionId]]
        invariant histories[sessionId] == base + ChunkMessages(events[..i])
      {
        var event := events[i];
        ChunkMessagesStep(events, i);
        forwarded := forwarded + [event];
        if event.event == ChunkTag {
          if sessionId in histories {
            histories := histories[sessionId := histories[sessionId] + [Assistant(Some(event.data), [])]];
          }
        }
        i := i + 1;
      }
      assert events[..i] == events;
    }
  }

  lemma ChunkMessagesStep(events: seq<Event>, i: nat)
    requires i < |events|
    ensures events[..i + 1] == events[..i] + [events[i]]
    ensures ChunkMessages(events[..i + 1])
            == ChunkMessages(events[..i]) + (if events[i].event == ChunkTag then [Assistant(Some(events[i].data), [])] else [])
  {
    assert events[..i + 1][..i] == events[..i];
  }

  // ---------------------------------------------------------------------------
  // What the store keeps
  // ---------------------------------------------------------------------------

  /** The chunks among a list of events. */
  function Chunks(events: seq<Event>): (cs: seq<Event>)
    ensures forall k :: 0 <= k < |cs| ==> cs[k].event == ChunkTag
  {
    if events == [] then []
    else
      var e := events[|events| - 1];
      Chunks(events[..|events| - 1]) + (if e.event == ChunkTag then [e] else [])
  }

  /**
   * Every chunk, and only chunks, is stored: one assistant message per chunk, in
   * order, each carrying that chunk's payload and no tool calls.
   */
  lemma {:induction false} StoredRepliesAreTheChunks(events: seq<Event>)
    ensures var msgs := ChunkMessages(events);
            && |msgs| == |Chunks(events)|
            && forall k :: 0 <= k < |msgs| ==> msgs[k] == Assistant(Some(Chunks(events)[k].data), [])
    decreases |events|
  {
    if events != [] {
      StoredRepliesAreTheChunks(events[..|events| - 1]);
    }
  }

  lemma {:induction false} ChunkMessagesAppend(a: seq<Event>, b: seq<Event>)
    ensures ChunkMessages(a + b) == ChunkMessages(a) + ChunkMessages(b)
    decreases |b|
  {
    if b == [] {
      assert a + b == a;
    } else {
      assert (a + b)[..|a + b| - 1] == a + b[..|b| - 1];
      ChunkMessagesAppend(a, b[..|b| - 1]);
    }
  }

  /** How many user messages a list holds. */
  function UserCount(msgs: seq<Message>): nat
  {
    if msgs == [] then 0 else UserCount(msgs[..|msgs| - 1]) + (if msgs[|msgs| - 1].User? then 1 else 0)
  }

  lemma {:induction false} UserCountAppend(a: seq<Message>, b: seq<Message>)
    ensures UserCount(a + b) == UserCount(a) + UserCount(b)
    decreases |b|
  {
    if b == [] {
      assert a + b == a;
    } else {
      assert (a + b)[..|a + b| - 1] == a + b[..|b| - 1];
      UserCountAppend(a, b[..|b| - 1]);
    }
  }

  lemma {:induction false} NoUserInReplies(events: seq<Event>)
    ensures UserCount(ChunkMessages(events)) == 0
    decreases |events|
  {
    if events != [] {
      var e := events[|events| - 1];
      NoUserInReplies(events[..|events| - 1]);
      UserCountAppend(ChunkMessages(events[..|events| - 1]), if e.event == ChunkTag then [Assistant(Some(e.data), [])] else []);
    }
  }

  /**
   * A request never shortens what is stored: the session's earlier messages stay
   * as they were, exactly one user message is added, and it comes right after them.
   */
  lemma StoreOnlyGrows(histories: map<string, seq<Message>>, sessionId: string, query: string, events: seq<Event>)
    ensures var before := Seeded(histories, sessionId);
            var after := AfterQuery(histories, sessionId, query, events);
            && |after| >= |before| + 1
            && after[..|before|] == before
            && after[|before|] == User(query)
            && UserCount(after) == UserCount(before) + 1
  {
    var before := Seeded(histories, sessionId);
    var after := AfterQuery(histories, sessionId, query, events);
    UserCountAppend(before + [User(query)], ChunkMessages(events));
    UserCountAppend(before, [User(query)]);
    NoUserInReplies(events);
    assert [User(query)][..0] == [];
  }

  /**
   * The turn sees at most ten messages, always the most recent ones; the system
   * prompt drops out of its view once the session holds more than ten messages.
   */
  lemma WindowKeepsTheLatest(stored: seq<Message>)
    requires |stored| > HistoryWindow && stored[0].System?
    requires forall i :: 0 < i < |stored| ==> !stored[i].System?
    ensures var seen := Recent(stored, HistoryWindow);
            && |seen| == HistoryWindow
            && seen[|seen| - 1] == stored[|stored| - 1]
            && forall i :: 0 <= i < |seen| ==> !seen[i].System?
  {
    var seen := Recent(stored, HistoryWindow);
    forall i | 0 <= i < |seen| ensures !seen[i].System? {
      assert seen[i] == stored[|stored| - HistoryWindow + i];
    }
  }

  /**
   * A session holding 25 messages: the turn sees its last ten, and afterwards the
   * store holds all 25, the user's message and one message per chunk.
   */
  lemma LongSessionScenario(histories: map<string, seq<Message>>, sessionId: string, query: string, events: seq<Event>)
    requires sessionId in histories && |histories[sessionId]| == 25
    ensures Recent(Seeded(histories, sessionId), HistoryWindow) == histories[sessionId][15..]
    ensures var after := AfterQuery(histories, sessionId, query, events);
            && after[..25] == histories[sessionId]
            && |after| == 26 + |Chunks(events)|
  {
    StoredRepliesAreTheChunks(events);
  }

  /** A provider failure on a new session stores the prompt, the question and the error reply. */
  lemma FailedFirstQuery(sessionId: string, query: string, error: string, env: Env)
    ensures var reply := Turn(query, Recent(Seeded(map[], sessionId), HistoryWindow), ProviderStream([], Some(error)), env);
            AfterQuery(map[], sessionId, query, reply.events)
            == [System(SystemPrompt), User(query), Assistant(Some("An error occurred: " + error), [])]
  {
    var reply := Turn(query, [System(SystemPrompt)], ProviderStream([], Some(error)), env);
    assert reply.events == [ChunkEvent("An error occurred: " + error), EndEvent()];
    var evs := reply.events;
    assert evs[..1] == [ChunkEvent("An error occurred: " + error)];
    assert evs[..1][..0] == [];
    assert ChunkMessages(evs[..1]) == [Assistant(Some("An error occurred: " + error), [])];
  }
}
