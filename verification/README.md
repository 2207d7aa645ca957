# MaxLLM, verified

MaxLLM is a gateway between clients that speak the OpenAI API and several model providers. This
project models the parts of it that are state machines, indexes and loops, and proves what holds over
all inputs and all runs: the stream translators, the admin ledger, provider selection, auto-compaction,
the response cache, model prices, guardrails, and the buffering of request bodies.

`dafny verify dfyconfig.toml` checks everything. Modules follow the program's components:

| modules | what they model |
|---|---|
| `Text`, `Utf8`, `Json`, `OpenAi` | bytes and lists; UTF-8 and lossy decoding; JSON as a value with printing and parsing as parameters; the client that assembles a stream |
| `SseFraming`, `SseFields`, `AnthropicStream`, `CohereStream` | the framing loop shared by two stream translators, the lines of an event, and the two event machines |
| `Delivery`, `Anthropic`, `AnthropicEndToEnd`, `AnthropicHistory`, `Cohere`, `CohereEndToEnd` | whole-response translation against streaming; bytes to message; history round trip |
| `GeminiFraming`, `GeminiStream`, `Gemini`, `GeminiEndToEnd`, `GeminiHistory` | the same for Gemini, whose framing loop is a different one |
| `AdminLedger`, `KeyHistory`, `TeamHistory`, `Store`, `Overshoot`, `OvershootExact` | keys, teams, spend log and budgets: one transition system, what its calls make of a key and of a team, the in-memory store that implements it, and the budget bound |
| `CircuitBreaker`, `Routing`, `Failover` | breaker, selection strategies, and rounds of both on a clock |
| `Compaction`, `Cache`, `Costs`, `Guardrail` | one component each |
| `BodyStages`, `RequestBody` | a request body: screened by the guardrails, compacted, and buffered while it arrives |

How the model is built:

- A byte string is a Dafny `string` whose character codes are bytes, so every offset is a byte offset.
- Code that updates state is a class or a loop whose contract equates the new state with a function;
  the theorems are about those functions. Each public call is one atomic step.
- Money is `real`. Counters and token counts are unbounded, except where the source's width matters:
  the breaker's failure count wraps at 32 bits, and weights and the shared counter carry their widths
  as preconditions.
- JSON printing and parsing, SHA-256, UUIDs and clocks are parameters: a parser and a printer that keep
  the values which occur where a round trip needs it, hashes and identifiers that are fresh, times that
  are given.

## Findings

Statements about the code that hold only under a condition. The condition is proved to be exact, or a
concrete input shows the failure.

- Anthropic and Cohere slice the byte buffer with an offset found in the lossy text. The offset is right
  exactly when the bytes before the delimiter are well-formed UTF-8, and the whole loop computes the framing
  of the bytes exactly when every event is; one stray byte makes the slice run past the buffer
  (`SseFraming.DrainExactIffValid`, `SseFraming.InvalidByteMakesSlicePanic`).
- Gemini: the result depends on how the network cuts the stream exactly when an unterminated event
  starts a later line of the tail and handling it would change something
  (`GeminiFraming.ChunkingInvariantIff`).
- Gemini: the role is sent if and only if the first event that opens the reply opens it with a text and
  no candidate of that event lacks `content.parts`. So it is lost when a function call comes first, and
  when the first event is dropped (`GeminiStream.RoleIsSentIff`).
- Gemini: an event with a candidate lacking `content.parts` is dropped from the stream whole. Text agrees
  with the whole response if and only if such events carry only empty texts, and calls with their ids if
  and only if they carry none. The finish reason agrees if and only if the last candidate gives one and the
  last delivered candidate that gives one gives the same, or neither it nor any delivered candidate gives one
  (`Gemini.StreamingAgainstWhole`, `Gemini.StreamingRefinesWhole`).
- Anthropic: a tool called with no argument delta streams empty argument text where the whole response
  prints `{}` (`Anthropic.EmptyArgumentsDiffer`).
- Cohere: streaming and whole response disagree on the finish reason `ERROR`, on a missing finish
  reason, and on a missing model (`Cohere.StreamingAgainstWhole`).
- A team's budget overshoot is not bounded by the requests in flight across its keys: it is if and only
  if keys join the team with nothing in flight (`OvershootExact.TeamBoundHoldsIff`).
- The repository's README and ARCHITECTURE.md call the response cache LRU; the code is first in, first
  out, and a hit changes nothing. The model follows the code (`Cache.EvictsIff`).
- A compacted body that must keep its Content-Length is padded only when compaction changed it. When it
  did not, a true Content-Length stays true if and only if screening did not print the body again, or
  printed it with the same length (`RequestBody.TrueLengthKeptIff`). A body stripped of its `guardrails`
  field can come out shorter than announced (`RequestBody.StrippedBodyTooShort`).
- Asking for a guardrail can let a request through that would otherwise be blocked. Whatever the checks
  compute this cannot happen if and only if, within the phase and the route's scope, no guardrail that runs
  only on request stands before one that is on by default and may block (`Guardrail.NeverUnblocksIff`).
- A body that its guardrails refuse goes through, as it came, if and only if it streams past them: it goes
  to a translator that keeps the Content-Length and auto-compaction is off
  (`RequestBody.RefusedUnlessStreamed`).
- The `guardrails` field of a chat body, if nothing else rewrites the body, reaches the provider if and only
  if the body streams past the guardrails, or an engine is configured but does not look: it has no pre-call
  guardrail, or the body has no content (`RequestBody.FieldReachesProviderIff`).
- Redaction puts the redacted content of the whole conversation into the last message of the user and
  leaves the others as they were. What goes on holds that content alone if and only if the messages before
  add up to nothing and those after have no text; without a message of the user, a prompt or messages go
  on unredacted (`BodyStages.RedactedBodyShows`).
- The gateway looks for a translator named `azure_openai`, but that translator calls itself
  `azure-openai` (`crates/maxllm-translate/src/azure_openai.rs:60-62`), so Azure bodies never keep their
  Content-Length (`RequestBody.AzureIsRewritten`).

## Model

| member | source | states |
|---|---|---|
| Utf8.LosslessIffValid | crates/maxllm-translate/src/anthropic_stream.rs:182 | lossy decoding never shortens the text and is the identity exactly on well-formed UTF-8 (RFC 3629 section 4) |
| Utf8.ValidIffEncodes | crates/maxllm-translate/src/anthropic_stream.rs:182 | well-formed means: the encoding of some characters, by the table of RFC 3629 section 3, surrogates excluded |
| Utf8.LossySplitsAtAscii | crates/maxllm-translate/src/anthropic_stream.rs:182-187 | decoding splits at every ASCII byte, whatever the bytes are |
| Utf8.FindInLossy | crates/maxllm-translate/src/anthropic_stream.rs:182-187 | where an ASCII delimiter is found in the lossy text of any bytes, relative to its first occurrence in the bytes |
| Utf8.DecodeCutStream | crates/maxllm-translate/src/anthropic_stream.rs:182-187 | a prefix of a well-formed stream, cut inside a character, decodes to its whole characters and perhaps one replacement |
| Utf8.FindIgnoresHigh | crates/maxllm-translate/src/gemini_stream.rs:154-201 | a truncated character at the end never moves the first match of an ASCII pattern |
| SseFraming.BoundaryExactIffValid | crates/maxllm-translate/src/anthropic_stream.rs:181-194 | the text offset is the byte offset, and the event is the bytes before it, if and only if those bytes are well-formed |
| SseFraming.DrainExactIffValid | crates/maxllm-translate/src/anthropic_stream.rs:181-194 | for every buffer the loop computes the framing of the bytes without a slice out of range if and only if every event is well-formed |
| SseFraming.InvalidByteMakesSlicePanic | crates/maxllm-translate/src/anthropic_stream.rs:181-194 | one byte that is not UTF-8 before a delimiter makes the slice index run past the buffer |
| SseFraming.DrainIsFrames | crates/maxllm-translate/src/anthropic_stream.rs:181-194 | on every prefix of a well-formed stream the loop over the decoded text computes the framing of the bytes and never slices out of range |
| SseFraming.FramesAppend | crates/maxllm-translate/src/anthropic_stream.rs:181-194 | framing in two parts is framing at once: the second part continues the remainder of the first |
| SseFraming.FramesRebuild | crates/maxllm-translate/src/anthropic_stream.rs:181-194 | framing loses no byte: the events, their delimiters and the remainder are the stream |
| SseFraming.FramesOfGlue | crates/maxllm-translate/src/anthropic_stream.rs:181-194 | framing inverts writing events with a delimiter after each |
| SseFraming.TwoCallsAreOne | crates/maxllm-translate/src/cohere_stream.rs:241-268 | a call on a prefix and a call on the rest give the output and state of one call |
| SseFraming.FeedIsOneCall | crates/maxllm-translate/src/cohere_stream.rs:241-268 | the same for any number of calls, from any buffer in between |
| SseFraming.ChunkingInvariance | crates/maxllm-translate/src/anthropic_stream.rs:177-205 | however a well-formed stream is cut, even inside a character or delimiter, outputs and final state are those of one call, and no call panics |
| SseFraming.FeedGlued | crates/maxllm-translate/src/anthropic_stream.rs:177-205 | a written list of events is handled as that list, however it is cut, and an event begun but not ended is handled when the stream ends |
| SseFields.ReadFields | crates/maxllm-translate/src/anthropic_stream.rs:46-57 | the line loop returns the last `event:` line, trimmed, and the last `data:` line |
| SseFields.ReadWritten | crates/maxllm-translate/src/cohere_stream.rs:59-67 | reading an event gives back the name and data it was written with |
| SseFields.ReadVariants | crates/maxllm-translate/src/cohere_stream.rs:59-67 | carriage returns, `data:` without a blank, several lines of a kind and other lines, and what is read of them |
| SseFields.WrittenIsWhole | crates/maxllm-translate/src/cohere_stream.rs:59-67 | the blank line after a written event is the first one |
| OpenAi.AssembleAppend | crates/maxllm-translate/src/anthropic_stream.rs:63-172 | a client assembling two runs of chunks assembles their concatenation |
| AnthropicStream.AnthropicToOpenAIStream.constructor | crates/maxllm-translate/src/anthropic_stream.rs:31-43 | the initial buffer and machine |
| AnthropicStream.AnthropicToOpenAIStream.TranslateEvent | crates/maxllm-translate/src/anthropic_stream.rs:45-173 | the method updates id, model and role flag, and emits, exactly as the event machine says |
| AnthropicStream.AnthropicToOpenAIStream.ProcessChunk | crates/maxllm-translate/src/anthropic_stream.rs:177-205 | the buffer loop and the end-of-stream flush compute one call of the framing engine, panics included |
| AnthropicStream.AtMostOneRole | crates/maxllm-translate/src/anthropic_stream.rs:64-90 | over any events, repeated `message_start` included, at most one chunk carries the role |
| Anthropic.TranslateResponse | crates/maxllm-translate/src/anthropic.rs:200-283 | the block loop gives the concatenated text, the tool calls in order, the mapped stop reason and the usage |
| Anthropic.WholeResponseSays | crates/maxllm-translate/src/anthropic.rs:200-283 | which stop reasons become `tool_calls`, `length` and `stop`, which count is the prompt's, and when text and calls are absent |
| Anthropic.CallsSay | crates/maxllm-translate/src/anthropic.rs:211-224 | the calls of the whole response, and what is put for a missing id, name or input |
| Anthropic.HandlesWhatItSees | crates/maxllm-translate/src/anthropic_stream.rs:63-172 | an event with any fields is handled as the one with only the fields its type reads, defaults filled in; all others are ignored |
| Anthropic.MessageReceived | crates/maxllm-translate/src/anthropic_stream.rs:63-172 | what is seen of any message, in any deltas and with any number of stop reasons, hands the client that message |
| Anthropic.StreamFinish | crates/maxllm-translate/src/anthropic_stream.rs:145-158 | the same of the finish reason a client gets from a stream, by the last stop reason sent |
| Anthropic.StreamingRefinesWhole | crates/maxllm-translate/src/anthropic.rs:200-257 | streaming and whole response agree on id, model, text, calls and finish reason; on argument text if and only if the deltas spell what the whole response prints |
| Anthropic.EmptyArgumentsDiffer | crates/maxllm-translate/src/anthropic.rs:211-225 | a call without arguments, sent in no deltas or empty ones, is where the two differ |
| Delivery.WireDelivers | crates/maxllm-translate/src/anthropic_stream.rs:177-205 | for any machine of this shape: lines written one after another and cut anywhere, the last blank line there or not, leave machine and client as the events seen in them do one by one, with no panic and an empty buffer |
| AnthropicEndToEnd.StreamDeliversMessage | crates/maxllm-translate/src/anthropic_stream.rs:177-205 | from any lines in which the machine sees a message, among other events and fields, cut anywhere: no panic, empty buffer, and the client holds exactly that message |
| AnthropicEndToEnd.TestStreamTells | crates/maxllm-translate/src/anthropic_stream.rs:214-232 | in the lines of the repository's test stream the machine sees a message of one text block |
| AnthropicHistory.TranslateMessages | crates/maxllm-translate/src/anthropic.rs:83-150 | the message loop gives the last system content and one request message per other message |
| AnthropicHistory.ConversationInOrder | crates/maxllm-translate/src/anthropic.rs:83-157 | the conversation keeps its order however it is cut in two, and the last system message counts |
| AnthropicHistory.MessageSays | crates/maxllm-translate/src/anthropic.rs:83-157 | what becomes of a message of each role: text, tool result with the call it answers, and calls with id or name and arguments |
| AnthropicHistory.AssistantBlocks | crates/maxllm-translate/src/anthropic.rs:117-150 | the blocks of an assistant turn with tool calls: non-empty text first, then the calls |
| AnthropicHistory.AssistantTurnRoundTrip | crates/maxllm-translate/src/anthropic.rs:117-150 | a response sent back as history keeps its text and, if the codec keeps its inputs, its tool uses: id, name and input, in order |
| CohereStream.CohereToOpenAIStream.constructor | crates/maxllm-translate/src/cohere_stream.rs:41-53 | the initial buffer and machine |
| CohereStream.CohereToOpenAIStream.TranslateEvent | crates/maxllm-translate/src/cohere_stream.rs:55-237 | the method updates its fields and emits exactly as the event machine says |
| CohereStream.CohereToOpenAIStream.ProcessChunk | crates/maxllm-translate/src/cohere_stream.rs:241-268 | the buffer loop and flush compute one call of the framing engine, panics included |
| CohereStream.AtMostOneRole | crates/maxllm-translate/src/cohere_stream.rs:70-101 | over any events at most one chunk carries the role |
| Cohere.HandlesWhatItSees | crates/maxllm-translate/src/cohere_stream.rs:70-237 | an event with any fields is handled as the one with only the fields its type reads, defaults filled in; all others are ignored |
| Cohere.MessageReceived | crates/maxllm-translate/src/cohere_stream.rs:70-237 | what is seen of any message, in any deltas, hands the client that message |
| Cohere.StreamFinish | crates/maxllm-translate/src/cohere_stream.rs:200-233 | which finish reasons a client gets as `stop`, `length` and `tool_calls`; none counts as `stop` |
| Cohere.StreamingAgainstWhole | crates/maxllm-translate/src/cohere.rs:170-251 | text, tool calls and id always agree; model and finish reason agree if and only if the stated conditions hold |
| Cohere.WholeResponseSays | crates/maxllm-translate/src/cohere.rs:170-251 | the same of the whole response, its defaults for id and model, and which count is the prompt's |
| Cohere.TextsInOrder | crates/maxllm-translate/src/cohere.rs:170-185 | the text of the whole response is that of its text blocks, in order |
| CohereEndToEnd.StreamDeliversMessage | crates/maxllm-translate/src/cohere_stream.rs:241-268 | from any lines in which the machine sees a message, among other events and fields, cut anywhere: no panic, empty buffer, and the client holds exactly that message |
| CohereEndToEnd.TestStreamTells | crates/maxllm-translate/src/cohere_stream.rs:312-333 | in the lines of the repository's test of a tool call the machine sees a message with that call |
| GeminiFraming.FindSkipsJunk | crates/maxllm-translate/src/gemini_stream.rs:175-182 | dropping whole lines without a `data: ` prefix destroys no partial prefix |
| GeminiFraming.DrainIsFrames | crates/maxllm-translate/src/gemini_stream.rs:154-201 | on every prefix of a well-formed stream the loop computes the framing of the bytes and keeps all of the tail that can matter |
| GeminiFraming.FramesAppend | crates/maxllm-translate/src/gemini_stream.rs:154-201 | framing in two parts is framing at once |
| GeminiFraming.FeedIs | crates/maxllm-translate/src/gemini_stream.rs:154-201 | any cutting handles the events of the bytes and ends with the tail minus some junk lines |
| GeminiFraming.CuttingDoesNotMatter | crates/maxllm-translate/src/gemini_stream.rs:154-201 | with an unambiguous tail every cutting gives the result of one call |
| GeminiFraming.AmbiguousTailDepends | crates/maxllm-translate/src/gemini_stream.rs:159-198 | with an ambiguous tail a cutting exists that handles an event one call drops |
| GeminiFraming.AmbiguousOutcomes | crates/maxllm-translate/src/gemini_stream.rs:159-198 | there are only those two outcomes |
| GeminiFraming.ChunkingInvariantIff | crates/maxllm-translate/src/gemini_stream.rs:154-201 | chunking invariance holds if and only if the tail is unambiguous or its pending event does nothing |
| GeminiStream.GeminiToOpenAIStream.constructor | crates/maxllm-translate/src/gemini_stream.rs:34-46 | the initial buffer and machine |
| GeminiStream.GeminiToOpenAIStream.TranslatePart | crates/maxllm-translate/src/gemini_stream.rs:68-126 | one part: role on the first text, text chunk, call chunk with the next index |
| GeminiStream.PartSays | crates/maxllm-translate/src/gemini_stream.rs:68-126 | the chunks of a part, their header, and what is put for a missing name or missing arguments |
| GeminiStream.GeminiToOpenAIStream.TranslateData | crates/maxllm-translate/src/gemini_stream.rs:49-150 | one event: all candidates in order, and the state changes that survive an aborted event |
| GeminiStream.GeminiToOpenAIStream.DrainEvents | crates/maxllm-translate/src/gemini_stream.rs:159-183 | the loop over the buffer computes the framing and the run of its events |
| GeminiStream.GeminiToOpenAIStream.ProcessChunk | crates/maxllm-translate/src/gemini_stream.rs:154-201 | one call of the engine: events, flush at the end of the stream, end marker, panics included |
| GeminiStream.AtMostOneRole | crates/maxllm-translate/src/gemini_stream.rs:68-126 | over any events at most one chunk carries the role, and none once it counts as sent |
| GeminiStream.RoleIsSentIff | crates/maxllm-translate/src/gemini_stream.rs:55-126 | over any events the role is sent, once, if and only if the first event that opens the reply opens it with a text and none of its candidates lacks parts |
| GeminiStream.AbortedEventLosesRole | crates/maxllm-translate/src/gemini_stream.rs:55-74 | an event aborted by a later candidate emits nothing and marks the role as sent |
| GeminiStream.LeadingCallLosesRole | crates/maxllm-translate/src/gemini_stream.rs:91-100 | a first event that opens with a call keeps the role from ever being sent |
| GeminiStream.OneEndMarker | crates/maxllm-translate/src/gemini_stream.rs:185-198 | however a stream is cut, well-formed or not, the output ends with the only end marker |
| Gemini.TranslateResponse | crates/maxllm-translate/src/gemini.rs:261-342 | the loops give the concatenated text, the numbered calls and the last candidate's finish reason; usage counts default to zero |
| Gemini.WholeResponseSays | crates/maxllm-translate/src/gemini.rs:261-333 | id, model, numbered calls, the table of finish reasons, and which count is the prompt's |
| Gemini.CallIdsDistinct | crates/maxllm-translate/src/gemini.rs:274-283 | no two calls of a response share an id |
| Gemini.EventsGained | crates/maxllm-translate/src/gemini_stream.rs:49-150 | whatever the events, the client gains exactly the texts, calls and last finish reason of those whose candidates all have parts, numbered without a gap if no call is dropped |
| Gemini.ConstantHeader | crates/maxllm-translate/src/gemini_stream.rs:49-150 | every chunk restates one id, model and creation time |
| Gemini.StreamFinish | crates/maxllm-translate/src/gemini_stream.rs:129-143 | the finish reason a client gets from a stream, by the last delivered candidate that gives one |
| Gemini.StreamingAgainstWhole | crates/maxllm-translate/src/gemini.rs:261-316 | for any events: text agrees with the whole response if and only if dropped events carry only empty texts; calls `call_0`, `call_1`, ... if and only if they carry none; finish reasons by the last delivered candidate that gives one |
| Gemini.StreamingRefinesWhole | crates/maxllm-translate/src/gemini.rs:261-316 | when every candidate has parts, text and calls always agree, and the finish reason if and only if the last candidate has one or none has |
| GeminiEndToEnd.StreamDeliversEvents | crates/maxllm-translate/src/gemini_stream.rs:154-201 | from lines that carry any events, candidates without parts included, cut anywhere: no panic, empty buffer, one end marker, the client holds what the events leave, and exactly when the role arrives |
| GeminiHistory.TranslateMessages | crates/maxllm-translate/src/gemini.rs:118-207 | the message loop gives the last system text and one content per other message |
| GeminiHistory.ConversationInOrder | crates/maxllm-translate/src/gemini.rs:118-212 | the conversation keeps its order however it is cut in two, and the last system message counts |
| GeminiHistory.MessageSays | crates/maxllm-translate/src/gemini.rs:118-212 | what becomes of a message of each role: text, tool result with the call it answers, and calls with id or name and arguments |
| GeminiHistory.AssistantTurnRoundTrip | crates/maxllm-translate/src/gemini.rs:161-206 | a response sent back as history keeps its text and, if the codec keeps its arguments, its function calls: name and arguments, in order |
| AdminLedger.RunsKeepInv | crates/maxllm-admin/src/store.rs:114-213 | over every run with fresh identifiers: names, index, key balances and team balances are all kept |
| AdminLedger.Conservation | crates/maxllm-admin/src/budget.rs:93-154 | each key's lifetime counters are the count and sums of its spend records; each team's spend is the sum of the records tagged with it |
| AdminLedger.IndexAgreesWithScan | crates/maxllm-admin/src/store.rs:114-174 | a lookup by hash finds exactly the key a scan would, though updates never touch the index |
| KeyHistory.KeyFate | crates/maxllm-admin/src/keys.rs:51-150 | a generated key exists until deleted, keeps its terms, and is active until revoked |
| KeyHistory.HashOwner | crates/maxllm-admin/src/store.rs:114-126 | no other key ever has the hash of a generated key |
| KeyHistory.KeyIsItsCalls | crates/maxllm-admin/src/budget.rs:93-183 | over every run, counters, last use, window spend and the end of the window, from the calls and their times alone |
| KeyHistory.WindowOverIff | crates/maxllm-admin/src/budget.rs:160-183 | a window is over if and only if the days the key was generated with have passed since its generation, or since its last reset if it had one |
| KeyHistory.WindowIsSinceReset | crates/maxllm-admin/src/budget.rs:160-183 | window spend is the sum of the key's records in the log since its window opened |
| KeyHistory.WindowWithinLifetime | crates/maxllm-admin/src/budget.rs:112-119 | window spend never exceeds lifetime spend |
| KeyHistory.AcceptedIff | crates/maxllm-admin/src/keys.rs:110-134 | over any run a key is accepted if and only if neither deleted nor revoked since, not expired, and under budget in its window |
| KeyHistory.ValidateIs | crates/maxllm-admin/src/keys.rs:110-134 | what the check of a key says over any run: unknown, revoked, expired, over budget or accepted, in that order |
| KeyHistory.RevokedForGood | crates/maxllm-admin/src/keys.rs:137-150 | once revoked or deleted, a key is never accepted again, whatever follows |
| TeamHistory.TeamsAreTheirCalls | crates/maxllm-admin/src/teams.rs:33-95 | over every run, which keys and teams there are, who is in which team and what a team may spend, from the calls alone |
| TeamHistory.BudgetCheckSays | crates/maxllm-admin/src/budget.rs:59-85 | what the budget check says over any run: the key's window first, then all that was spent for its team |
| TeamHistory.CallsAnswer | crates/maxllm-admin/src/teams.rs:33-95 | what each call answers, and that a failed one changes nothing |
| Store.InMemoryStore.constructor | crates/maxllm-admin/src/store.rs:94-102 | the empty ledger |
| Store.InMemoryStore.CreateKey | crates/maxllm-admin/src/store.rs:114-126 | key and index entry are written together, or nothing on a duplicate |
| Store.InMemoryStore.GetKeyById | crates/maxllm-admin/src/store.rs:141-144 | the key stored under the identifier, if any |
| Store.InMemoryStore.GetKeyByHash | crates/maxllm-admin/src/store.rs:128-139 | the lookup through the index |
| Store.InMemoryStore.ListKeys | crates/maxllm-admin/src/store.rs:146-152 | every key exactly once |
| Store.InMemoryStore.UpdateKey | crates/maxllm-admin/src/store.rs:154-161 | replaces an existing key and leaves the index alone |
| Store.InMemoryStore.DeleteKey | crates/maxllm-admin/src/store.rs:163-174 | removes the key and its index entry |
| Store.InMemoryStore.CreateTeam | crates/maxllm-admin/src/store.rs:178-185 | adds a team, or nothing on a duplicate |
| Store.InMemoryStore.GetTeam | crates/maxllm-admin/src/store.rs:187-190 | the team stored under the identifier, if any |
| Store.InMemoryStore.UpdateTeam | crates/maxllm-admin/src/store.rs:199-206 | replaces an existing team |
| Store.InMemoryStore.DeleteTeam | crates/maxllm-admin/src/store.rs:208-211 | removes a team |
| Store.InMemoryStore.RecordSpend | crates/maxllm-admin/src/store.rs:215-222 | appends to the log |
| Store.InMemoryStore.GetSpendSummary | crates/maxllm-admin/src/store.rs:245-309 | the loop over three maps: totals of the selected records, and one group per name with the totals of its records |
| Store.GroupsPartition | crates/maxllm-admin/src/store.rs:245-309 | however the groups of a dimension are listed, they add up to the report's total |
| Store.ReportSays | crates/maxllm-admin/src/store.rs:245-309 | a report holds the totals of its records, and a group for each model, provider and key in them, with the totals of the records of that name |
| Store.ReportAgreesWithCounters | crates/maxllm-admin/src/store.rs:245-309 | over every run the report agrees with the counters kept on the keys |
| Store.GenerateKey | crates/maxllm-admin/src/keys.rs:51-104 | the call is the ledger step |
| Store.ValidateKey | crates/maxllm-admin/src/keys.rs:110-134 | revoked, expired and over-budget keys are told apart in that order |
| Store.RevokeKey | crates/maxllm-admin/src/keys.rs:137-150 | the call is the ledger step |
| Store.CreateTeam | crates/maxllm-admin/src/teams.rs:33-46 | the call is the ledger step |
| Store.AddMember | crates/maxllm-admin/src/teams.rs:49-71 | the call is the ledger step; on an error nothing changes |
| Store.RemoveMember | crates/maxllm-admin/src/teams.rs:74-94 | the call is the ledger step; the key's team is cleared even if it is another one |
| Store.CheckBudget | crates/maxllm-admin/src/budget.rs:59-85 | key budget first, then team budget |
| Store.RecordUsage | crates/maxllm-admin/src/budget.rs:93-154 | key, team and log change together by the cost the calculator gives, or nothing if the key is gone |
| Store.ResetOne | crates/maxllm-admin/src/budget.rs:165-179 | one key is reset if its window is over |
| Store.ResetExpiredBudgets | crates/maxllm-admin/src/budget.rs:160-183 | exactly the keys whose window is over are reset, and counted |
| Overshoot.OvershootBound | crates/maxllm-admin/src/budget.rs:59-85 | in every reachable state, spent plus what is in flight is within the budget plus the cost of the requests in flight together and of those brought in by joining keys |
| Overshoot.KeyOvershoot | crates/maxllm-admin/src/budget.rs:112-127 | a key's window spend never exceeds its budget, or zero if that is negative, plus the cost of the requests in flight together, resets included |
| Overshoot.TeamOvershoot | crates/maxllm-admin/src/budget.rs:121-127 | the same for a team, plus the requests in flight carried in by joining keys |
| OvershootExact.TeamBoundHoldsIff | crates/maxllm-admin/src/teams.rs:49-71 | for a team the bound without that surplus holds in every run if and only if no key joins with a request in flight |
| OvershootExact.JoinBreaksBound | crates/maxllm-admin/src/teams.rs:49-71 | one carried-in request is enough to break it, for any number in flight and any cost |
| CircuitBreaker.Counter.constructor | crates/maxllm-gateway/src/circuit_breaker.rs:26-33 | the fresh breaker |
| CircuitBreaker.Counter.IsOpenAt | crates/maxllm-gateway/src/circuit_breaker.rs:36-48 | open while the limit is reached and the timeout has not passed |
| CircuitBreaker.Counter.RecordFailure | crates/maxllm-gateway/src/circuit_breaker.rs:51-54 | counts with 32-bit wrap-around and remembers the time |
| CircuitBreaker.Counter.RecordSuccess | crates/maxllm-gateway/src/circuit_breaker.rs:57-59 | forgets the failures |
| CircuitBreaker.ReplayRemembers | crates/maxllm-gateway/src/circuit_breaker.rs:51-59 | after any history the fields are the failures since the last success, wrapped, and the time of the last failure |
| CircuitBreaker.OpenIffRecentStreak | crates/maxllm-gateway/src/circuit_breaker.rs:36-59 | open if and only if the failures since the last success reach the limit and the last is younger than the timeout |
| Routing.WeightedIndex | crates/maxllm-gateway/src/routing.rs:82-102 | the cumulative loop finds the candidate whose share holds the target, and its fallback is never reached |
| Routing.SharesAreDisjoint | crates/maxllm-gateway/src/routing.rs:93-101 | no target lies in two shares |
| Routing.ShareExists | crates/maxllm-gateway/src/routing.rs:93-101 | every target lies in a share |
| Routing.Selector.Filter | crates/maxllm-gateway/src/routing.rs:44-48 | the candidates whose breaker is closed, in order |
| Routing.Selector.Draw | crates/maxllm-gateway/src/routing.rs:59-62 | draws the counter's value and advances it |
| Routing.Selector.Select | crates/maxllm-gateway/src/routing.rs:38-80 | what each strategy chooses, and when the counter is drawn |
| Routing.Selector.FirstMinimum | crates/maxllm-gateway/src/routing.rs:63-68 | the first of the smallest |
| Routing.ChoiceIsUnique | crates/maxllm-gateway/src/routing.rs:38-80 | the specification of a strategy allows one choice only |
| Routing.WeightedIsFair | crates/maxllm-gateway/src/routing.rs:82-102 | over as many consecutive counter values as the weights sum to, each candidate is chosen exactly as often as its weight says |
| Routing.RoundRobinIsFair | crates/maxllm-gateway/src/routing.rs:59-62 | over n consecutive counter values each of n candidates is chosen exactly once |
| Failover.BuildCandidates | crates/maxllm-gateway/src/gateway.rs:468-487 | primary, then fallbacks, those configured |
| Failover.SelectProvider | crates/maxllm-gateway/src/gateway.rs:463-505 | the selection, the fallback flag and the original provider |
| Failover.SelectionSays | crates/maxllm-gateway/src/gateway.rs:463-505 | which provider a request goes to under each strategy, by the names of its route, and when it counts as a fallback |
| Failover.Chosen | crates/maxllm-gateway/src/routing.rs:44-57 | under every strategy, a provider whose breaker is open is never selected |
| Failover.BreakerStep | crates/maxllm-gateway/src/gateway.rs:1374-1381 | a round leaves the breaker of a dead provider alone, or selects it while closed and records a failure |
| Failover.OpenIffFailing | crates/maxllm-gateway/src/gateway.rs:1374-1381 | over any rounds, a breaker is open if and only if enough answers since the last 200..299 were 500..599 or 429 and the last of those is young |
| Failover.TrippedTraffic | crates/maxllm-gateway/src/circuit_breaker.rs:36-59 | once the limit is reached each further selection waits out the timeout, as long as the count does not wrap |
| Failover.DeadProviderBound | crates/maxllm-gateway/src/routing.rs:44-57 | a provider that always fails is selected at most max_fails times plus once per elapsed timeout, whatever the routes, strategies and other providers, as long as that many timeouts do not wrap its 32-bit count |
| Compaction.Separate | crates/maxllm-plugin/src/builtin/auto_compaction.rs:280-301 | the loop separates system messages from the others, both in order |
| Compaction.SeparatedKinds | crates/maxllm-plugin/src/builtin/auto_compaction.rs:280-301 | one part holds only system messages, the other none |
| Compaction.PartsInOrder | crates/maxllm-plugin/src/builtin/auto_compaction.rs:280-301 | both parts keep the order of the messages |
| Compaction.PartsOfMessages | crates/maxllm-plugin/src/builtin/auto_compaction.rs:280-301 | no message and no estimated token is lost by separating |
| Compaction.KeepNewest | crates/maxllm-plugin/src/builtin/auto_compaction.rs:336-349 | the newest-first loop with its reversal is the greedy walk |
| Compaction.Body.CompactMessages | crates/maxllm-plugin/src/builtin/auto_compaction.rs:308-457 | result and rewritten messages for every strategy and parameter |
| Compaction.KeptIffFits | crates/maxllm-plugin/src/builtin/auto_compaction.rs:336-349 | a message is kept if and only if it fits on top of the system messages and the newer ones kept, or fewer than the minimum are kept |
| Compaction.NewestAreKept | crates/maxllm-plugin/src/builtin/auto_compaction.rs:336-349 | the newest messages up to the minimum are all kept |
| Compaction.FitsOrMinimum | crates/maxllm-plugin/src/builtin/auto_compaction.rs:336-349 | what is kept fits the threshold, or is no more than the minimum |
| Compaction.TruncationContract | crates/maxllm-plugin/src/builtin/auto_compaction.rs:328-368 | a truncated body is the system messages and a strictly shorter, order-preserving selection with the newest messages, within the threshold or down to the minimum |
| Compaction.TruncatesIff | crates/maxllm-plugin/src/builtin/auto_compaction.rs:328-368 | truncation shortens exactly the bodies over the threshold with more than the minimum to drop from |
| Compaction.WindowContract | crates/maxllm-plugin/src/builtin/auto_compaction.rs:370-395 | the window keeps exactly the newest `windowSize` others, if and only if there are more |
| Compaction.CompactIsIdempotent | crates/maxllm-plugin/src/builtin/auto_compaction.rs:308-395 | truncating or windowing the result again with the same parameters does nothing |
| Compaction.LlmPartition | crates/maxllm-plugin/src/builtin/auto_compaction.rs:397-453 | summarised and kept messages partition the non-system ones, the summarised part is not empty, and no index underflows |
| Compaction.SummarisesIff | crates/maxllm-plugin/src/builtin/auto_compaction.rs:397-453 | when a summary is asked for, from whom, and of which messages |
| Compaction.SummarySays | crates/maxllm-plugin/src/builtin/auto_compaction.rs:429-445 | the text to summarise, a line for each message that is a text |
| Compaction.EstimateSays | crates/maxllm-plugin/src/builtin/auto_compaction.rs:161-193 | the estimate of a message: four and a quarter of the bytes of each text, rounded up |
| Compaction.OthersDoNothing | crates/maxllm-plugin/src/builtin/auto_compaction.rs:308-455 | other strategies and bodies without messages are left alone |
| BodyStages.ExtractContent | crates/maxllm-plugin/src/guardrail/mod.rs:422-454 | the loops give the texts of all messages, one to a line, or the prompt |
| BodyStages.ContentSays | crates/maxllm-plugin/src/guardrail/mod.rs:422-454 | what each message and part adds to the content guardrails see, and when the prompt counts |
| BodyStages.PreCall | crates/maxllm-plugin/src/guardrail/mod.rs:152-156 | whether some guardrail runs before the call |
| BodyStages.RedactLastUser | crates/maxllm-gateway/src/gateway.rs:1156-1170 | the reverse loop rewrites the last message of the user |
| BodyStages.RedactsOne | crates/maxllm-gateway/src/gateway.rs:1156-1170 | redaction rewrites one message, the last of the user, and no other; none if the user has none |
| BodyStages.RedactionCleansIff | crates/maxllm-gateway/src/gateway.rs:1156-1170 | the redacted messages hold the redacted content alone if and only if nothing comes before the last message of the user and no text after it |
| BodyStages.RedactedBodyShows | crates/maxllm-gateway/src/gateway.rs:1149-1182 | what guardrails would see of a redacted body: that content under the same condition; without a message of the user, what they saw before |
| BodyStages.ScreenBody | crates/maxllm-gateway/src/gateway.rs:1094-1207 | what the guardrail stage leaves of a chat body: blocked, redacted, stripped of the `guardrails` field, or as it came |
| BodyStages.ScreenSays | crates/maxllm-gateway/src/gateway.rs:1094-1207 | the same by the checks alone: what each chosen guardrail makes of the content, and what body goes on |
| BodyStages.FieldSurvivesIff | crates/maxllm-gateway/src/gateway.rs:1118-1207 | the guardrail stage leaves the `guardrails` field if and only if an engine is configured but does not look |
| BodyStages.AdmitBody | crates/maxllm-gateway/src/gateway.rs:1042-1076 | a native body is blocked if and only if its content is and the engine looks |
| BodyStages.AdmitsSays | crates/maxllm-gateway/src/gateway.rs:1042-1076 | a native body is refused if and only if there is a content and a guardrail on by default blocks what those before it made of it |
| BodyStages.CompactBody | crates/maxllm-gateway/src/gateway.rs:1211-1310 | the compaction stage on a whole body: compact_messages, the summary, and printing only if something changed |
| BodyStages.CompactStageSays | crates/maxllm-gateway/src/gateway.rs:1211-1310 | what the stage makes of a body by the result of compaction: nothing, fewer messages, or the summary between those set apart and those kept |
| BodyStages.StageIsIdempotent | crates/maxllm-gateway/src/gateway.rs:1211-1310 | a body shortened by truncation or the window is left alone the next time |
| Cache.BoundedCache.constructor | crates/maxllm-plugin/src/builtin/cache.rs:42-48 | the empty cache |
| Cache.BoundedCache.Get | crates/maxllm-plugin/src/builtin/cache.rs:50-60 | an expired entry is forgotten; otherwise nothing changes, the order included |
| Cache.BoundedCache.Insert | crates/maxllm-plugin/src/builtin/cache.rs:62-76 | the eviction loop drops at most one key, the oldest besides the inserted one |
| Cache.RunsKeepInv | crates/maxllm-plugin/src/builtin/cache.rs:50-76 | after any calls the order is the duplicate-free listing of the keys, and the size is at most max(1, max_entries) |
| Cache.HitIsLatest | crates/maxllm-plugin/src/builtin/cache.rs:50-60 | every hit is the most recently inserted value, and at most its time to live old |
| Cache.LookupSays | crates/maxllm-plugin/src/builtin/cache.rs:50-60 | an entry is found as long as it is at most its time to live old, and forgotten by the next lookup after that |
| Cache.EvictsIff | crates/maxllm-plugin/src/builtin/cache.rs:62-76 | an insertion evicts a key if and only if the cache is full and the key is the oldest besides the inserted one |
| Cache.Survives | crates/maxllm-plugin/src/builtin/cache.rs:50-76 | an unexpired entry survives max_entries - 2 later insertions of other keys, and one more if each of those keys is absent when inserted |
| Costs.GlobDecidesLanguage | crates/maxllm-admin/src/costs.rs:34-46 | the matcher terminates and decides exactly the language of the pattern |
| Costs.GlobSplits | crates/maxllm-admin/src/costs.rs:34-46 | a concatenated pattern matches exactly the texts that split into matches of its parts |
| Costs.PlainMatchesItself | crates/maxllm-admin/src/costs.rs:34-46 | without wildcards a pattern matches only itself |
| Costs.BuildExactIndex | crates/maxllm-admin/src/costs.rs:85-93 | the index holds the last entry of each wildcard-free name |
| Costs.CostCalculator.constructor | crates/maxllm-admin/src/costs.rs:79-115 | the entries and their index |
| Costs.CostCalculator.AddCost | crates/maxllm-admin/src/costs.rs:120-126 | appends an entry and keeps the index |
| Costs.CostCalculator.FindCost | crates/maxllm-admin/src/costs.rs:157-168 | the last entry with exactly the name, otherwise the first pattern that matches, otherwise nothing |
| Costs.CostCalculator.CalculateCost | crates/maxllm-admin/src/costs.rs:131-143 | tokens in and out at the price of the model, nothing without a price |
| Costs.PriceIsUnique | crates/maxllm-admin/src/costs.rs:157-168 | that specification allows one answer only |
| Costs.AddingCosts | crates/maxllm-admin/src/costs.rs:120-168 | what one more entry changes: its own name at once, a pattern only names without a price |
| Costs.CostsAddUp | crates/maxllm-admin/src/costs.rs:131-143 | without negative prices no cost is negative, and tokens can be charged together or apart |
| Costs.PricesSay | crates/maxllm-admin/src/costs.rs:131-143 | a million tokens in cost the input price, a million tokens out the output price, and without a price nothing costs anything |
| Guardrail.RunPreCall | crates/maxllm-plugin/src/guardrail/mod.rs:216-297 | the loop is the walk over the active entries: verdict, rewritten content and names applied |
| Guardrail.RunPostCall | crates/maxllm-plugin/src/guardrail/mod.rs:300-370 | the same on answers |
| Guardrail.RunComposes | crates/maxllm-plugin/src/guardrail/mod.rs:216-370 | running two lists is running the first and, unless it blocks, the second on the rewritten content |
| Guardrail.RunSays | crates/maxllm-plugin/src/guardrail/mod.rs:174-370 | a run by its checks: which guardrails are chosen, what each is given and makes of it, and the verdict, or the one that blocks |
| Guardrail.AppliedIsPrefix | crates/maxllm-plugin/src/guardrail/mod.rs:216-370 | the names applied are a prefix of the active entries, all of them unless the last blocks |
| Guardrail.DefaultOnRuns | crates/maxllm-plugin/src/guardrail/mod.rs:174-207 | whatever is requested, the default-on entry at its place among the active ones is applied, unless an entry before it blocks |
| Guardrail.OnlySelectedRun | crates/maxllm-plugin/src/guardrail/mod.rs:174-207 | nothing runs outside the phase or the route's scope, or without being on by default or asked for |
| Guardrail.RequestsOnlyAddBlocks | crates/maxllm-plugin/src/guardrail/mod.rs:174-297 | if no check rewrites content, a run blocks if and only if a selected guardrail blocks |
| Guardrail.NeverUnblocksIff | crates/maxllm-plugin/src/guardrail/mod.rs:174-297 | requests never unblock, whatever the checks compute, if and only if no eligible on-request guardrail stands before an eligible default-on one that may block |
| Guardrail.RequestedRedactionUnblocks | crates/maxllm-plugin/src/guardrail/mod.rs:253-282 | with such a pair in a configuration, checks on its entries, a content and a request exist that unblock |
| RequestBody.RequestContext.constructor | crates/maxllm-gateway/src/gateway.rs:843-872 | which bodies keep their Content-Length |
| RequestBody.RequestContext.RequestBodyFilter | crates/maxllm-gateway/src/gateway.rs:895-1361 | one call: what is buffered, what is forwarded, when the body is rewritten |
| RequestBody.RequestContext.CompactBuffer | crates/maxllm-gateway/src/gateway.rs:1209-1330 | compact_messages on the parsed body, the summary if one is needed, and the padding |
| RequestBody.CuttingDoesNotMatter | crates/maxllm-gateway/src/gateway.rs:895-1361 | however the body is cut, what is forwarded is a function of the whole body, rewritten exactly once at its end |
| RequestBody.TargetSays | crates/maxllm-gateway/src/gateway.rs:846-1361 | what reaches the provider, or why nothing does, by endpoint, translator, compaction, guardrails and announced length |
| RequestBody.UnchangedModes | crates/maxllm-gateway/src/gateway.rs:901-1090 | passthrough, native, embeddings and uncompacted fixed-length bodies arrive as they came |
| RequestBody.AzureIsRewritten | crates/maxllm-gateway/src/gateway.rs:846-877 | chat bodies for Azure are held back and rewritten, never padded |
| RequestBody.RewrittenAtMostOnce | crates/maxllm-gateway/src/gateway.rs:895-1361 | over any calls, even after the end, the body is rewritten at most once and then nothing more is forwarded |
| RequestBody.PaddingExact | crates/maxllm-gateway/src/gateway.rs:1308-1330 | for any announced length, a compacted body has it if and only if compaction changed the body and did not exceed it, or left alone a body of that length, as it came or printed again by screening |
| RequestBody.TrueLengthKeptIff | crates/maxllm-gateway/src/gateway.rs:1308-1330 | a true announced length stays true if and only if compaction changed the body without lengthening it, or screening did not print it again or kept its length |
| RequestBody.FieldReachesProviderIff | crates/maxllm-gateway/src/gateway.rs:1094-1330 | through the whole filter, however the body is cut, the `guardrails` field arrives if and only if the body streams past the guardrails or the engine does not look |
| RequestBody.RefusedUnlessStreamed | crates/maxllm-gateway/src/gateway.rs:914-974 | a chat or native body that the guardrails refuse is forwarded as it came if it streams past them, and blocked otherwise |
| RequestBody.StrippedBodyTooShort | crates/maxllm-gateway/src/gateway.rs:1183-1205 | a stripped body that compaction leaves alone is forwarded too short |

## Left out

- Store.InMemoryStore.ListKeys: every key once, but neither the order by creation time nor `offset` and `limit`.
- Store.InMemoryStore.GetSpendSummary: the groups of a dimension are a map, not the list sorted by spend.
- Store.GenerateKey: name, prefix, allowed models, rate limits and metadata of a key, which no modelled call reads.
- Store.CreateTeam: name, metadata and creation time of a team, which no modelled call reads.
- RequestBody.RequestContext.RequestBodyFilter: the model name and the streaming flag it reads from the body for later use.
- Network, sessions, TLS, headers other than the Content-Length strategy, configuration files, metrics, tracing: input and output around the modelled logic.
- The text of JSON and of SSE lines other than `event:` and `data:`: printing and parsing are parameters; events and bodies are values.
- Gemini responses that do not parse: a candidate whose content is there without parts makes the whole response fail; in the model such a candidate is one without content.
- `sqlite_store.rs`: its behaviour is in SQL statements.
- SHA-256, UUIDs, clocks: hashes and identifiers are fresh values, times are parameters that the theorems let advance.
- `f64` rounding: money is exact. `u64` counters and token counts do not wrap; for weighted selection the sum of weights stays below 2^32, and the shared counter below 2^64, by precondition.
- Interleavings inside one public call and weak memory: each call is one step, so lost updates between reading and writing a key are not modelled.
- Spend-log and request-log queries.
- Request fields other than the messages in the translators.
- OpenAI, Azure, OpenAI-compatible and Bedrock translators: the identity or near copies of what is modelled.
- Regex, expression, webhook and pattern guardrails: in the engine they are arbitrary check functions.
- The answer of the model that summarises: any text, or none.
- LatencyBased and CostBased strategies: the source treats them like Fallback, and so does the model.
- `rate_limit.rs`: its counting is in a library.
- Team membership as a two-way relation: the code does not keep `members` and `team_id` inverse to each other; what each is over a run is stated apart.
