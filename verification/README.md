# SuperCar virtual sales assistant: the streaming tool-call turn, in Dafny

This project models the backend of a streaming chat assistant for a car dealership chain.
A client posts a query with a session id. The backend keeps each session's messages. It
hands the recent ones to a language-model provider, offering four tools: weather,
dealership address, appointment availability and appointment booking. The provider's
answer streams back as server-sent events: `chunk`, `tool_use`, `tool_output` and `end`.

The model covers:

- **The orchestrator.** This is `LLMClient.process_query` (module `Llm`). It reads the
  provider's streamed deltas and forwards text as it arrives. It assembles tool calls
  from indexed fragments, runs the complete calls, asks the provider once more when any
  call was assembled, and turns any exception into one error chunk. The turn is
  specified by fold functions over the stream and over the pending calls (`StreamFrom`,
  `AbsorbFragments`, `ToolsFrom`, `FollowUp`, `Turn`). The method `ProcessQuery` and its
  three loop methods run the source's loops, and are proved equal to those folds.
  Module `TurnProperties` proves what every turn guarantees.
- **The session store.** This is the `/query` handler (module `Sessions`). The class
  `SessionStore` holds the map from session id to stored messages. The method `Query`
  does the following, in order:
  1. seeds a new session with the system prompt;
  2. snapshots the last ten messages;
  3. stores the user's message;
  4. runs the turn;
  5. relays the events, storing each chunk as an assistant message.
- **The event encoders** (module `Stream`).
- **The tool registry** (module `Tools`): the descriptors, the name-to-function table,
  the argument display names, and dispatch with its KeyError and TypeError outcomes.
- **The four tools** (modules `Weather`, `Dealership` and `Appointment`). The
  availability check keeps the source's imperative shape. It seeds the generator, draws
  the slots, and sorts them in place in an array (`SortInPlace`). It is proved equal to a
  reference list that is ascending, duplicate-free and drawn from the 18-slot table.

Everything outside the process is a parameter:

- The provider is a `ProviderStream`: its deltas, then an optional exception.
- The second completion is a function of the transcript, which answers with text or raises.
- `json.loads` and `json.dumps` are functions `parse` and `dumps` in `Env`. `parse`
  reports malformed text, a non-object value with its type name, or an object with
  string values.
- The seeded generator is an oracle `draw: nat -> Sample`. Its result type carries the
  promise of `random.randint(5, 10)` followed by `random.sample`: 5 to 10 distinct
  table positions.
- `strptime`/`strftime` and the clock are a `Calendar`.

A tool call keeps the id, type and name of its first fragment, even when they are
empty. Later fragments for the same index only extend its arguments
(backend/llm.py:61-74; see `TurnProperties.OneCallAssembled`). The calls
accumulate across the whole stream, not per chunk (`TurnProperties.StreamCalls`), and with
indices arriving contiguously each call's arguments are its own fragments' pieces in order
(`TurnProperties.StreamArgumentsAssembled`).

## Model

| member | source | states |
|---|---|---|
| `Stream.ChunkEvent` | backend/utils/stream.py:5-10 | a chunk event is tagged `chunk` and carries exactly the given text |
| `Stream.ToolUseEvent` | backend/utils/stream.py:13-18 | tagged `tool_use`, carries the tool name |
| `Stream.ToolOutputEvent` | backend/utils/stream.py:21-30 | tagged `tool_output`, carries the serialisation of the object {name, output} |
| `Stream.EndEvent` | backend/utils/stream.py:33-38 | tagged `end`, empty payload |
| `Stream.EncoderTagsDistinct` | backend/utils/stream.py:5-38 | the four encoders give four pairwise distinct tags, whatever their arguments |
| `Stream.ToolOutputMembers` | backend/utils/stream.py:21-30 | the tool_output payload carries both the tool name and its output: under a serialiser that tells values apart, equal payloads mean the same name and the same output |
| `Weather.Lookup` | backend/tools/weather.py:12-24 | a listed city gets its table entry, any other city the default 25°C / clear |
| `Weather.GetWeather` | backend/tools/weather.py:24-25 | defines the tool: "The weather in ", the city, " is ", the looked-up temperature, " and it's ", the condition and a full stop (its properties: `SentenceQuotesCity`, `ListedCity`, `UnlistedCity`) |
| `Weather.SentenceQuotesCity` | backend/tools/weather.py:25 | for every city the sentence starts with "The weather in ", quotes the city verbatim, and ends with the looked-up condition and a full stop |
| `Weather.ListedCity` | backend/tools/weather.py:12-25 | a listed city's sentence uses that city's temperature and condition |
| `Weather.UnlistedCity` | backend/tools/weather.py:21-25 | any other city's sentence reports 25°C and clear |
| `Weather.CaseSensitive` | backend/tools/weather.py:24 | the lookup is exact: "Miami" is listed, "miami" gets the default |
| `Weather.MiamiSentence` | backend/tools/weather.py:17-25 | the sentence for Miami, spelled out |
| `Dealership.Describe` | backend/tools/dealership.py:52 | defines the found-id sentence: "Name: ", name, ". Address: ", address, ". Phone: ", phone, ". Hours: ", hours, "." |
| `Dealership.GetDealershipAddress` | backend/tools/dealership.py:49-55 | a known id gives the "Name: … Address: … Phone: … Hours: …." line from its entry; any other id gives the fixed not-found text |
| `Dealership.KnownIdNamesDealership` | backend/tools/dealership.py:49-52 | a known id's answer begins "Name: " followed by the dealership's name |
| `Dealership.UnknownIdsIndistinguishable` | backend/tools/dealership.py:53-55 | two unknown ids get the same answer: it does not depend on the id |
| `Dealership.NotFoundKeepsPlaceholder` | backend/tools/dealership.py:55 | the not-found text contains the literal `{dealership_id}` |
| `Dealership.KnownIdIsFound` | backend/tools/dealership.py:15-55 | a known id never gets the not-found text |
| `Appointment.StrLess` | backend/tools/appointment.py:39 | defines Python's `<` on strings, which `.sort()` orders by: code point by code point, a proper prefix being smaller |
| `Appointment.SlotsAscending` | backend/tools/appointment.py:26-30 | the slot table is strictly ascending under string order, so sorting positions sorts the strings |
| `Appointment.CodePointSum` | backend/tools/appointment.py:33 | defines `sum(ord(c) for c in s)` |
| `Appointment.Seed` | backend/tools/appointment.py:33 | defines the seed: the code-point sum of the id followed by the date |
| `Appointment.SeedSplits` | backend/tools/appointment.py:33 | the seed is the code-point sum of the id plus that of the date |
| `Appointment.DrawnPositions` | backend/tools/appointment.py:38-39 | the drawn positions in table order are strictly increasing and within the table |
| `Appointment.Availability` | backend/tools/appointment.py:26-41 | defines the reference answer: the table slots at the positions the oracle draws for the seed, in table order |
| `Appointment.AvailabilitySortedSubset` | backend/tools/appointment.py:26-41 | the availability answer is strictly ascending as strings (so duplicate-free) and every entry is a table slot |
| `Appointment.SortInPlace` | backend/tools/appointment.py:39 | the in-place sort leaves the array ascending and a permutation of what it held |
| `Appointment.AscendingIsDrawn` | backend/tools/appointment.py:38-39 | a strictly ascending list with exactly the drawn positions is the reference list |
| `Appointment.CheckAvailability` | backend/tools/appointment.py:6-41 | seed, draw, sort in place: the answer is the reference list for the inputs' seed (same inputs, same answer) and has 5 to 10 slots |
| `Appointment.NameTablesAgree` | backend/tools/appointment.py:71-77 | the scheduler's name table has the address tool's keys and names |
| `Appointment.NatToString` | backend/tools/appointment.py:68 | `str` of a number is a non-empty string of digits |
| `Appointment.DecimalRoundTrip` | backend/tools/appointment.py:68 | reading the rendered digits back gives the number |
| `Appointment.DecimalWidth` | backend/tools/appointment.py:68 | numbers below 10000 render in at most four digits |
| `Appointment.Prefix4` | backend/tools/appointment.py:68 | `user_id[:4]` is the first min(4, length) characters |
| `Appointment.ConfirmationCode` | backend/tools/appointment.py:68 | defines the code: "SC-", the id, "-", the user id's first four characters, "-", the decimal of the timestamp modulo 10000 |
| `Appointment.ConfirmationCodeShape` | backend/tools/appointment.py:68 | the code is "SC-", the id, "-", the user prefix, "-", then one to four digits denoting a number below 10000 |
| `Appointment.ScheduleAppointment` | backend/tools/appointment.py:59-95 | rejected exactly when the date or time does not parse, with the fixed message; otherwise echoes user id, dealership id and car model, and names the dealership from the table or generically |
| `Appointment.BookingJson` | backend/tools/appointment.py:63-98 | defines the returned dictionary: `error` alone for a rejection; otherwise confirmation code, user id, dealership {id, name}, appointment {date, time, car model}, instructions and cancellation policy, in the source's order |
| `Appointment.BookingKeys` | backend/tools/appointment.py:63-98 | the error dictionary has the single key `error`; a confirmation has no such key |
| `Tools.DisplayName` | backend/tools/__init__.py:104-110 | the five listed keys get their labels, every other key is shown as itself |
| `Tools.DescriptorNamesDistinct` | backend/tools/__init__.py:6-95 | the four descriptors have pairwise distinct names |
| `Tools.DescriptorMatchesFunction` | backend/tools/__init__.py:6-103 | each descriptor is a function whose name is in the table, whose parameters are the function's, all required and all strings |
| `Tools.OfferedIsExecutable` | backend/tools/__init__.py:6-103 | the offered names are exactly the executable names |
| `Tools.ArgumentNamesAreParameters` | backend/tools/__init__.py:69-110 | the labelled keys are exactly the booking tool's parameters; `city` shows as itself |
| `Tools.Run` | backend/tools/__init__.py:98-103 | defines the `TOOL_FUNCTIONS` dispatch: each name calls its own tool with the arguments bound by keyword |
| `Tools.Execute` | backend/llm.py:94 | an unknown name raises KeyError quoting it; a known one succeeds exactly when the arguments name its parameters |
| `Tools.Invoke` | backend/llm.py:94 | the dispatch, running availability through the in-place check, gives what Execute specifies |
| `Tools.WeatherCallAnswers` | backend/tools/__init__.py:98-103 | a weather call with its one argument answers with the weather sentence |
| `Tools.AddressCallAnswers` | backend/tools/__init__.py:98-103 | an address call with its one argument answers with that dealership's address text |
| `Tools.AvailabilityCallAnswers` | backend/tools/__init__.py:98-103 | an availability call with its two arguments answers with the slots drawn for that dealership and date |
| `Tools.BookingCallAnswers` | backend/tools/__init__.py:98-103 | a booking call with its five arguments answers with the dictionary of the booking made from them |
| `Llm.AbsorbFragment` | backend/llm.py:59-74 | a new index without a function part raises; with one it appends one record at the end, absent fields as ""; an existing index only extends that record's arguments |
| `Llm.AbsorbFragments` | backend/llm.py:58-74 | defines a delta's fragment loop: fragments absorbed in order, stopping at the first that raises |
| `Llm.WithText` | backend/llm.py:53-55 | defines a delta's text step: truthy text is collected and yielded as one chunk |
| `Llm.AbsorbDelta` | backend/llm.py:51-74 | defines one delta: its text, then its fragments |
| `Llm.StreamFrom` | backend/llm.py:50-74 | defines the stream loop: deltas in order, stopping at the first exception |
| `Llm.EndOfStream` | backend/llm.py:50 | defines a stream failure raised once the delivered deltas are consumed |
| `Llm.MissingArguments` | backend/llm.py:86-87 | defines `empty_values`: the display names of the arguments that are empty or `required` |
| `Llm.ToolStep` | backend/llm.py:78-110 | unparseable or incomplete arguments: nothing happens; non-object JSON raises; otherwise tool_use, then the tool's failure or tool_output and the assistant-then-tool message pair |
| `Llm.ToolsFrom` | backend/llm.py:77-110 | defines the pending-call loop: calls in list order, stopping at the first exception |
| `Llm.FollowUp` | backend/llm.py:112-124 | defines the follow-up: asked only when some call was assembled, its truthy text yielded as one chunk, its failure raised |
| `Llm.FinalProgress` | backend/llm.py:33-124 | defines the try block: start from history plus the user message, the stream, the pending calls, the follow-up |
| `Llm.Finish` | backend/llm.py:126-133 | defines the closing events: `end`, preceded by the "An error occurred: " chunk when the turn raised |
| `Llm.Turn` | backend/llm.py:33-133 | defines `process_query`: the events it yields and the working transcript it leaves (its properties: the `TurnProperties` lemmas) |
| `Llm.AccumulateFragments` | backend/llm.py:59-74 | the fragment loop gives the pending calls (or the exception) the fragment fold specifies |
| `Llm.ConsumeStream` | backend/llm.py:47-74 | the stream loop gives the content, calls and events (or the exception) the stream fold specifies, the stream's own failure raised at its end |
| `Llm.RunPendingCalls` | backend/llm.py:77-110 | the pending-call loop gives the events and transcript (or the exception) the call fold specifies |
| `Llm.ProcessQuery` | backend/llm.py:17-133 | the yielded events and the working transcript are those of `Turn` |
| `TurnProperties.WithTextEchoes` | backend/llm.py:53-55 | a delta with text appends exactly that text to the content and yields exactly one more event, a chunk carrying that text, after the earlier ones; a delta without text changes nothing |
| `TurnProperties.StreamEchoes` | backend/llm.py:50-55 | during the stream the transcript is untouched, only chunks are yielded, and the content is the text of the chunks so far |
| `TurnProperties.ToolStepShape` | backend/llm.py:78-110 | one pending call yields no `end` and leaves the transcript alone or appends one exchange for that call |
| `TurnProperties.ToolsAppendExchanges` | backend/llm.py:77-110 | the call phase only appends whole exchanges (each tool message right after the assistant message with its call, same id and name) and yields no `end` |
| `TurnProperties.BeforeFollowUp` | backend/llm.py:33-110 | before the follow-up the transcript is history, user message, then exchanges, and no `end` was yielded |
| `TurnProperties.EndClosesEveryTurn` | backend/llm.py:126-133 | on every path the events end with exactly one `end` |
| `TurnProperties.TranscriptShape` | backend/llm.py:33 | the transcript starts with the caller's history and the user message, followed only by tool exchanges |
| `TurnProperties.FollowUpClose` | backend/llm.py:76-127 | whenever some call was assembled and nothing raised, even if every call was skipped, the provider is asked once more with the working transcript; a non-empty answer is the one chunk before `end`, an empty one adds nothing, and a failure closes with the error chunk |
| `TurnProperties.NoCallsNoFollowUp` | backend/llm.py:76-127 | with no assembled call the provider is not asked again: the streamed events, then `end`, with the transcript as the stream left it |
| `TurnProperties.RaisedClose` | backend/llm.py:129-133 | every caught exception closes the turn alike: the events yielded so far, none of them `end`, then one chunk "An error occurred: " followed by the message, then `end` |
| `TurnProperties.OpeningFailure` | backend/llm.py:129-133 | a provider failing before any delta yields one "An error occurred: " chunk, then `end` |
| `TurnProperties.TextOnlyStream` | backend/llm.py:50-55 | deltas without fragments collect exactly their text and leave no pending call |
| `TurnProperties.TextOnlyTurn` | backend/llm.py:47-127 | a text-only turn yields chunks whose text is the streamed text, then `end`, and asks nothing more |
| `TurnProperties.ContinuationsConcatenate` | backend/llm.py:70-74 | fragments for an existing index concatenate their argument pieces in order and change nothing else |
| `TurnProperties.OneCallAssembled` | backend/llm.py:59-74 | an opening fragment and continuations give one call with the opening's id, type and name and all the argument text |
| `TurnProperties.SkippedCallsLeaveNoTrace` | backend/llm.py:80-89 | calls with unparseable or blank arguments yield nothing and change nothing |
| `TurnProperties.SkippedCallStillAsks` | backend/llm.py:77-124 | even when the only call is skipped, the follow-up is requested and its text is the only chunk |
| `TurnProperties.UnknownToolRaises` | backend/llm.py:91-94 | a complete call to an unknown tool yields tool_use, then the KeyError chunk quoting its name, then `end` |
| `TurnProperties.BlankDateSkipped` | backend/llm.py:86-89 | a booking with a blank date lists "date (YYYY-MM-DD)" as missing and is skipped |
| `TurnProperties.NothingMissing` | backend/llm.py:86-87 | arguments with no blank or placeholder value leave nothing missing |
| `TurnProperties.AbsorbFragmentsAppend` | backend/llm.py:58-74 | absorbing two runs of fragments is absorbing the first and then the second from its result; an exception from the first stops the fold |
| `TurnProperties.StreamCalls` | backend/llm.py:50-74 | the calls (or the exception) a stream leaves are those of absorbing all its deltas' fragments in order from the calls it started with: accumulation spans chunks |
| `TurnProperties.CallsAssembled` | backend/llm.py:61-74 | for fragments arriving contiguously (each index at most the number of calls open, openings carry a function part) nothing raises, open calls keep id, type and name, and call i's arguments are its earlier arguments ("" if new) followed by the pieces of the fragments with index i, in order |
| `TurnProperties.StreamArgumentsAssembled` | backend/llm.py:50-74 | over a whole stream with contiguous indices, however the fragments are spread over chunks, nothing raises and each call's arguments are its own fragments' pieces concatenated in order |
| `TurnProperties.WeatherCallAssembled` | backend/llm.py:59-74 | the weather call streamed in two fragments assembles into one call with the whole JSON |
| `TurnProperties.WeatherCallRuns` | backend/llm.py:86-110 | that call yields tool_use and tool_output with the Miami sentence and records one exchange |
| `TurnProperties.WeatherTurn` | backend/llm.py:47-127 | the whole weather turn: tool_use, tool_output, the follow-up's chunk, `end`, and the transcript with one exchange |
| `Sessions.Recent` | backend/main.py:67 | the last min(n, length) messages, a suffix of the stored list |
| `Sessions.Seeded` | backend/main.py:61-64 | a known session's messages; a new session gets exactly the system prompt |
| `Sessions.ChunkMessages` | backend/main.py:77-84 | defines what the generator stores: one assistant message per chunk event, carrying its data |
| `Sessions.AfterQuery` | backend/main.py:61-90 | defines a session's store after a request: the seeded messages, the user message, then the chunk messages |
| `Sessions.SessionStore.constructor` | backend/main.py:38 | the store starts empty |
| `Sessions.SessionStore.Query` | backend/main.py:59-90 | the turn sees the last ten messages before the user's; events are forwarded unchanged and in order; only this session changes, to seeded + user message + one message per chunk |
| `Sessions.SessionStore.Relay` | backend/main.py:70-84 | every event forwarded in order; each chunk appended as an assistant message as it passes |
| `Sessions.StoredRepliesAreTheChunks` | backend/main.py:78-84 | one stored assistant message per chunk event, in order, carrying its payload; other events are not stored |
| `Sessions.ChunkMessagesAppend` | backend/main.py:78-84 | storing two runs of events stores their replies one after the other |
| `Sessions.NoUserInReplies` | backend/main.py:78-84 | relaying never stores a user message |
| `Sessions.StoreOnlyGrows` | backend/main.py:61-90 | a request never truncates the stored list and adds exactly one user message, right after it |
| `Sessions.WindowKeepsTheLatest` | backend/main.py:62-67 | the turn sees ten messages, ending with the latest; beyond ten stored messages the system prompt is no longer among them |
| `Sessions.LongSessionScenario` | backend/main.py:67-90 | with 25 stored messages the turn sees the last ten, and the store keeps all 25 plus the new ones |
| `Sessions.FailedFirstQuery` | backend/main.py:59-90 | a failing provider on a new session stores the prompt, the question and the error reply |

## Left out

- The Groq client, the API-key and model environment variables, and the two completion calls (backend/llm.py:10-15, 37-45, 113-119). They are network I/O. The stream and the follow-up answer are inputs, so the second completion's `max_tokens` and `temperature` do not appear.
- `json.loads` and `json.dumps` are uninterpreted. Argument values are modelled as strings only, so a call with a non-string value (a number, a list) is outside the model. Python's TypeError message for mismatched keyword arguments is represented by one fixed text, not reproduced word for word.
- `Tools.Execute`: the KeyError text is `'name'`. Python's `repr` would escape a name containing quotes or backslashes.
- The Mersenne Twister behind `random.seed`, `randint` and `sample`, and `strptime`, `strftime` and `datetime.now` (backend/tools/appointment.py:34-38, 60-61, 68, 81-82). These are oracles carrying only their stated output constraints.
- `Appointment.CheckAvailability`: the array sorted in place holds the drawn table positions, not the slot strings. Strictly ascending positions give strictly ascending strings (`SlotsAscending`), so the result is the same.
- A provider chunk with an empty `choices` list (backend/llm.py:51) would raise IndexError. A delta is always present in the model, and fragment indices are non-negative.
- Python dictionaries are shared by reference. Here the pending call placed into the assistant message is a value. Nothing changes the call after that point, so the transcript is the same.
- FastAPI, CORS, the health endpoints, `EventSourceResponse` and uvicorn (backend/main.py:1-35, 93-107). These are HTTP plumbing.
- The asynchronous generators, and the race between two requests for the same session (backend/main.py:38, 70-90). One request runs to completion at a time. The `session_id in conversation_histories` test inside the relay is kept, though it always holds in a single-request model.
- `print` calls (backend/llm.py:34; backend/main.py:75; backend/tools/dealership.py:51, 54) are output only.
- backend/models.py (the request schema) and backend/utils/__init__.py (re-exports) are not part of this model.
