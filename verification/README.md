# SimpleAPI in Dafny

SimpleAPI is a proxy between clients and providers of language models. It speaks three protocols (Anthropic Messages,
OpenAI Chat Completions, Codex Responses), routes a client's model alias to candidate providers, fails over between
them, translates requests and event streams, and records what it did. This project models that logic and proves what it
promises.

## How the project is laid out

| part | files |
|---|---|
| shared helpers | `Wrappers`, `Strings`, `Lists`, `Sorting`, `JsonTree` |
| one request: attempt, candidate loop; all requests interleaved; and the two views reconciled | `Attempt`, `Pipeline`, `Requests`, `Alone` |
| what is kept of each attempt, told from what was sent and what came back | `Records` |
| what goes out to the providers, and what comes back to the client, from end to end | `Outgoing`, `OutgoingRuns`, `TextRelay`, `ReplyRelay`, `AliasRelay` |
| shared state: slots, failure counter, recorders, archive queue | `Limiter`, `Failover`, `CallLog`, `Usage`, `Archive` |
| streaming translation | `Wire`, `Streams`, `Brackets`, `ToolCalls`, `Signals` |
| request translation | `Norm`, `Codex`, `Anthropic`, `OpenAI`, `Turns`, `Translation` |
| response translation | `Responses`, `Replies` |
| model field rewriting | `ModelRewrite` |
| configuration, routing, management | `Config`, `Validate`, `Accepted`, `Glob`, `Indexes`, `Routing`, `Management`, `Edits` |
| payload rules | `Payload`, `PayloadLaws`, `PayloadApply`, `PayloadFilter`, `PayloadSweep`, `PayloadExact` |

Code that changes things step by step is a method or a class here, proved against a function of its inputs and old
state; the properties are lemmas about those functions. Two protocols run concurrently in the program and are step
systems here: the archive queue (`Archive`, one action per lock, flag and channel operation) and the requests
(`Requests`, one action per access to something shared). `Requests` uses the same verdict, event and answer functions
that `Pipeline` proves of the sequential loop, and `Alone` shows that a request whose neighbours pause does what the
loop does.

## Where the code does something unexpected

- `Recent` reads the entry count three times before it takes the lock (internal/calllog/calllog.go:86-91). Records
  arriving between the second and third read make it return more entries than the caller's limit.
  `CallLog.Recorder.Recent` says exactly when it does, and that what it returns is always the newest entries.
- `applyFilter` sorts paths as strings (internal/payload/engine.go:76), so `a.9` is deleted before `a.10` and the
  wrong element goes. `PayloadFilter` and `PayloadExact` give the exact condition under which the filter is right.
- `streamCodexToAnthropic` emits message_start for response.created and again for response.in_progress
  (internal/translate/stream.go:191). Its text is right all the same; `Brackets.CodexToAnthropicBrackets` says exactly
  which streams come out well bracketed.
- json.Marshal compacts the raw JSON of tool inputs and schemas and escapes `<`, `>` and `&`
  (internal/translate/anthropic.go:156, internal/translate/helpers.go:44), so a relay keeps it as a JSON value and not
  as text. `Anthropic.AnthropicKeepsValues` and `Anthropic.AnthropicRoundTrip` say exactly when each holds.
- A data URL ends its media type at the first comma (section 3 of RFC 2397), so an image whose media type holds one
  does not come back. `Norm.DataURLRoundTrip` and `Norm.ImageNormalises` say exactly when an image survives one relay,
  and a second.
- The arguments of an OpenAI or Codex tool call are a string. When they are neither blank nor JSON, translating the
  request to Anthropic fails to marshal them, the error is dropped, and an empty body goes out, without even a model
  (internal/translate/anthropic.go:156, internal/translate/pairs.go:8-42). `Translation.MarshalsWhenJSON` and
  `Outgoing.RequestSendsItsModels` say exactly when. An answer whose calls have such arguments reaches a client of
  Anthropic's protocol as an empty body the same way (`Replies.TranslationKeepsAnswer`).
- The comment of internal/config/env.go:18 says that expansion is idempotent. It is not in general, since a value can
  complete a placeholder; the model takes expansion as a fixed function and relies on no such law.

## Model

| member | source | states |
|---|---|---|
| Glob.Match | internal/glob/glob.go:10-33 | The greedy matcher returns true exactly when the pattern is nonempty and some choice of a run for every `*` turns it into the string. |
| Glob.LeftmostSuffices | internal/glob/glob.go:25-31 | Taking the leftmost occurrence of a part loses no match: any later choice can be exchanged for it. |
| Glob.SplitMeaning | internal/glob/glob.go:20-32 | Prefix, ordered occurrences and suffix of the parts between the stars mean the same as filling the stars. |
| Glob.StarFreeIsExact | internal/glob/glob.go:17-19 | A pattern without a star denotes itself and nothing else. |
| ModelRewrite.RewriteSSEFragment | internal/modelrewrite/sse.go:14-45 | In place, with its shortcut for fragments without data: line for line, each data line with a valid payload shows the alias at every model field it had, in its own framing, and every other line is unchanged. |
| ModelRewrite.NoDataNoChange | internal/modelrewrite/sse.go:15-17 | The shortcut is sound: a fragment without "data:" anywhere has no line to rewrite. |
| ModelRewrite.RewriteSetsEveryModelField | internal/modelrewrite/rewrite.go:26-43 | With a lawful JSON library, every model field that was there shows the alias and none appears or disappears. |
| ModelRewrite.RewriteAcrossNewline | internal/modelrewrite/sse.go:14-45 | Rewriting commutes with cutting a fragment at any newline. |
| ModelRewrite.RewriteDistributes | internal/modelrewrite/sse.go:14-45 | A newline-terminated piece can be rewritten on its own, before or apart from what follows. |
| ModelRewrite.RewrittenOnlyAlias | internal/modelrewrite/sse.go:14-45 | In a rewritten fragment no data line shows any model name but the alias. |
| AliasRelay.StreamShowsOnlyAlias | internal/pipeline/stream.go:108-173 | A relayed stream, passed through or translated, shows its reader no model name but the alias. |
| AliasRelay.ClientReadsOnlyAlias | internal/pipeline/pipeline.go:173-289 | Over a whole request with rewriting on, failed attempts and all: a client answered with a 2xx, streamed or whole, reads no model name but the alias it asked for. |
| Streams.StreamAnthropicToOpenAI | internal/translate/stream.go:41-105 | Updates the stream state in place and emits as its specification function does, of which text, order and tool calls are proved below. |
| Streams.StreamOpenAIToAnthropic | internal/translate/stream.go:113-161 | Same, in the direction that opens and closes text blocks. |
| Streams.StreamAnthropicToCodex | internal/translate/stream.go:165-183 | Same, Anthropic to Codex. |
| Streams.StreamCodexToAnthropic | internal/translate/stream.go:187-224 | Same, Codex to Anthropic, both announcements included. |
| Streams.StreamOpenAIToCodex | internal/translate/stream.go:228-251 | Same, OpenAI to Codex. |
| Streams.StreamCodexToOpenAI | internal/translate/stream.go:255-270 | Same, Codex to OpenAI. |
| Streams.TranslateKeepsText | internal/translate/stream.go:41-270 | For every stream and every target protocol the text that comes out is the text that went in. |
| Streams.EveryRouteKeepsText | internal/translate/stream.go:41-270 | So it is along every chain of translations: two steps agree with one, and every cycle gives the text back. |
| Signals.SpeaksOpenAI | internal/translate/stream.go:41-105 | For every Anthropic event sequence: one role chunk per message_start under its model, one finish chunk per message_delta with its reason, one end marker per message_stop, in order, every chunk under the last announced model. |
| Signals.SpeaksCodex | internal/translate/stream.go:165-183 | One response.created per message_start under its model, one response.completed per message_delta under the last announced model, and the texts between, in order. |
| Signals.SpeaksAnthropicToChunks | internal/translate/stream.go:113-161 | For every chunk sequence: one message_start, with the first event, under the model it names, and for each finish its reason and the end. |
| Signals.SpeaksAnthropicToCodex | internal/translate/stream.go:187-224 | For every Codex event sequence: one message_start per announcement under its model, and one ending per completion. |
| Signals.SpeaksCodexToChunks | internal/translate/stream.go:228-251 | For every chunk sequence: one response.created, with the first event, and one response.completed per finish, under the last model named. |
| Signals.SpeaksOpenAIToCodex | internal/translate/stream.go:255-270 | One role chunk per response.created under its model, and per completion a finish chunk and the end marker. |
| Signals.ReasonsRoundTrip | internal/translate/openai.go:272-294 | The finish reasons both protocols have survive the way there and back; every other becomes a plain stop. |
| Brackets.OpenAIToAnthropicIsWellBracketed | internal/translate/stream.go:113-161 | For every chunk sequence, repeated finishes and nil chunks included: one message_start, first; blocks numbered 0, 1, 2 and never nested; deltas only in the open block; the message ends only with no block open. |
| Brackets.CodexToAnthropicBrackets | internal/translate/stream.go:187-224 | The Codex direction is well bracketed if and only if the stream announces itself once, first, and sends no text after the text block closed. |
| Brackets.TwoAnnouncements | internal/translate/stream.go:191-202 | response.created followed by response.in_progress yields two message_start events, which is not well bracketed. |
| ToolCalls.EmitsWhatIsOwed | internal/translate/stream.go:49-95 | For every event sequence, the tool calls emitted are those owed by the history: one for each stop of an index that has ever started a tool, with the latest tool started there and the pieces sent for it. |
| ToolCalls.OneCallPerBlock | internal/translate/stream.go:79-95 | When every index starts and stops once, call j belongs to the j-th stopped tool block. |
| ToolCalls.ToolBlocksReassembled | internal/translate/stream.go:49-95 | However blocks interleave, there is one call per started and stopped tool block, in stop order, numbered 0, 1, 2, with its own id, name and in-order arguments. |
| Norm.EnsureIsIdempotent | internal/translate/openai.go:323-329 | Normalising tool arguments once is normalising them for good. |
| Norm.EnsureKeepsObjects | internal/translate/openai.go:323-329 | Arguments that are a JSON object or array are kept, whatever blanks are around them; any others are dropped for an empty object. |
| Norm.JsonRawIsNeverBlank | internal/translate/helpers.go:44-49 | Blank raw JSON becomes an object, and only blank raw JSON changes. |
| Norm.EmbeddedSettles | internal/translate/anthropic.go:156 | Raw JSON marshalled into a message comes back compacted, once and for all; it comes back as it was exactly when it was compact and not blank. |
| Norm.SplitContent | internal/translate/openai.go:297-309 | Partitions the blocks into text and images, results, and uses, each in order. |
| Norm.JoinText | internal/translate/openai.go:311-319 | Concatenates the text of text and thinking blocks, in order. |
| Norm.DataURLRoundTrip | internal/translate/openai.go:332-351 | Writing an image as a data URL and reading it back is the identity exactly when the media type has no comma. |
| Norm.ImageNormalises | internal/translate/openai.go:332-351 | A second write and read changes nothing exactly when the media type is comma-free or is cut by a marker of its own. |
| Norm.ToolsNormalise | internal/translate/codex.go:162-173 | Tool definitions marshal again after a relay and settle with it; they come back unchanged exactly when every schema is compact and not blank. |
| Codex.ParseCodexRequest | internal/translate/codex.go:11-92 | The loops compute the parse of the request. |
| Codex.BuildCodexRequest | internal/translate/codex.go:95-176 | The loops compute the request built. |
| Codex.KindsFollowRoles | internal/translate/codex.go:117-144 | Text goes out as output_text in the assistant's messages and as input_text in all others. |
| Codex.RelayedMessages | internal/translate/codex.go:11-176 | Parse after build turns each message into its text and images, then one message per tool use, then one per tool result; a request whose schemas do not marshal arrives without messages. |
| Codex.RelayKeepsOrder | internal/translate/codex.go:95-176 | Over all messages, text and images, tool uses and tool results each keep their order and content. |
| Codex.CodexNormalises | internal/translate/codex.go:11-176 | Parse after build is idempotent if and only if the image media types settle or some tool schema does not marshal; a request with such a schema becomes empty once and for all. |
| Anthropic.ParseAnthropicRequest | internal/translate/anthropic.go:10-45 | The loops compute the parse of the request. |
| Anthropic.BuildAnthropicRequest | internal/translate/anthropic.go:88-134 | The loops compute the request built. |
| Anthropic.AnthropicRelay | internal/translate/anthropic.go:10-168 | Parse after build gives every request that marshals back with thinking turned to text, raw JSON compacted and the token limit defaulted, and any other as an empty one. |
| Anthropic.ContentRoundTrip | internal/translate/anthropic.go:47-168 | Content comes back a fixed point that marshals, and unchanged exactly when no block is a thinking block or a tool use whose input is blank or not compact. |
| Anthropic.AnthropicRoundTrip | internal/translate/anthropic.go:10-168 | Parse after build is the identity on the text if and only if everything marshals, the token limit is positive, no block is thinking, and all raw JSON is compact. |
| Anthropic.AnthropicKeepsValues | internal/translate/anthropic.go:10-168 | It is the identity as JSON values if and only if everything marshals, the token limit is positive, no block is thinking and no raw JSON is blank. |
| Anthropic.AnthropicNormalises | internal/translate/anthropic.go:10-168 | It is idempotent if and only if everything marshals: an empty request comes back with a token limit the second time. |
| OpenAI.ParseOpenAIRequest | internal/translate/openai.go:11-76 | The loops compute the parse of the request. |
| OpenAI.BuildOpenAIRequest | internal/translate/openai.go:100-180 | The loops compute the request built. |
| OpenAI.RelayedRequest | internal/translate/openai.go:11-180 | Parse after build, for messages of every role: one message per tool result and one entry with its joined text and uses, or its user blocks; system entries join the system prompt; nothing arrives when a schema does not marshal. |
| OpenAI.RelayKeepsToolTraffic | internal/translate/openai.go:124-161 | Over all messages, the tool uses that are sent and the tool results arrive with their content and in order. |
| OpenAI.OpenAINormalises | internal/translate/openai.go:11-200 | Up to empty messages, parse after build is idempotent if and only if the image media types and the system prompt settle or some schema does not marshal. |
| Turns.PlainIsOneBlock | internal/translate/anthropic.go:47-56 | A content given as a string parses as its one-block form does. |
| Turns.AnthropicParses | internal/translate/anthropic.go:10-86 | Parsing any Anthropic body keeps, message by message, its texts, thinking, images, tool uses and tool results, and its system prompt, whatever shapes its contents have. |
| Turns.OpenAIParses | internal/translate/openai.go:11-98 | The same of any OpenAI body; its system messages join the system prompt. |
| Turns.CodexParses | internal/translate/codex.go:11-92 | The same of any Codex body, whose instructions are the system prompt. |
| Translation.TranslateRequest | internal/translate/pairs.go:8-42 | What the registry runs for a pair: the parse of the body in its own protocol, built in the other. |
| Translation.TranslationKeepsTurns | internal/translate/pairs.go:8-42 | For every pair and every wire body: turn by turn, the translated body says what the client's body says, in the ways of its own protocol; nothing is sent only when some raw JSON does not marshal. |
| Translation.TranslationKeepsSettings | internal/translate/pairs.go:8-42 | A translated body asks for the same model, limits, sampling and tools. |
| Translation.TranslationKeepsHeading | internal/translate/pairs.go:8-42 | It heads with the text of the system prompt. |
| Translation.MarshalsWhenJSON | internal/translate/anthropic.go:156 | A translation sends something if and only if the raw JSON it takes over is JSON. |
| Responses.ParseCodexResponse | internal/translate/codex.go:179-208 | The nested loops compute the parse of the reply, and its words, calls and ending are those of the wire body (`Replies.ReadAnswers`). |
| Responses.BuildOpenAIResponse | internal/translate/openai.go:230-270 | The loops compute the reply built, whose answer is that of the normal form (`Replies.WrittenAnswers`). |
| Replies.TranslateResponse | internal/translate/pairs.go:8-42 | What the registry runs on a whole response, for each pair. |
| Replies.ReadAnswers | internal/translate/anthropic.go:171-182 | Each protocol's parser keeps a reply's model, words, calls, ending and counts, read off the wire body in its own terms. |
| Replies.WrittenAnswers | internal/translate/anthropic.go:185-201 | Each builder keeps them too, in the ways of its protocol. |
| Replies.TranslationKeepsAnswer | internal/translate/pairs.go:8-42 | For every pair and every reply: the same model, words and counts, the calls in order with their arguments in the ways of the client's protocol, and the ending where that has a word for it; nothing if and only if, to Anthropic, some call's arguments are neither blank nor JSON. |
| Replies.AnswerThereAndBack | internal/translate/pairs.go:8-42 | An answer translated and translated back is what it was if and only if both protocols have a word for its ending and the arguments of every call survive both ways. |
| Replies.TotalIsSum | internal/translate/openai.go:261-266 | The total sent to an OpenAI client is that of the counts. |
| ReplyRelay.WholeAnswerArrives | internal/pipeline/pipeline.go:266-288 | Over a whole request, failed attempts and all: a client answered with a whole 2xx reads, in its own protocol, the words, calls, ending and counts of the answer its upstream gave. |
| Config.ParseAfterBuild | internal/config/helpers.go:17-29 | Parsing an internal id gives back the provider and the alias, which may itself hold slashes. |
| Config.InternalIDInjective | internal/config/helpers.go:17-19 | Slash-free provider names make internal ids unambiguous. |
| Config.Expand | internal/config/load.go:41-53 | Expansion replaces provider keys and headers, client keys, the admin key and the archive directory, and leaves everything else as it was. |
| Accepted.AcceptedIffSound | internal/config/validate.go:26-158 | Validation accepts exactly the sound configs: providers that can be called, names and secrets of their own, keys that list offered models only, rules that write neither to the model field nor non-JSON. |
| Validate.Validate | internal/config/validate.go:26-158 | Reports exactly the problems the config has, and nothing exactly when it has none. |
| Validate.ValidatePayload | internal/config/validate_payload.go:13-61 | The same for the payload rules alone. |
| Validate.FirstPathSegment | internal/config/validate_payload.go:86-93 | The longest prefix without a dot or bracket. |
| Validate.DuplicateInternalIsRedundant | internal/config/validate.go:88-96 | A duplicate internal id is never reported without a duplicate provider, a duplicate alias or a slash in a name. |
| Validate.ValidIDs | internal/config/validate.go:74-97 | In a valid config every model has an id of its own, and parsing it gives back its provider and alias. |
| Indexes.SortCandidates | internal/indexes/indexes.go:190-197 | A permutation of the candidates by priority descending, then config order. |
| Indexes.KeyContext.AddWildcardCandidate | internal/indexes/indexes.go:94-105 | The candidate joins the route of its pattern, or opens one after the others. |
| Indexes.ResolveCandidates | internal/indexes/indexes.go:79-90 | The exact route of the name, else the route of the first pattern that matches. |
| Indexes.BuildKey | internal/indexes/indexes.go:149-206 | Fails exactly when the key lists an unknown model; otherwise the context is the one its model list asks for. |
| Indexes.Build | internal/indexes/indexes.go:119-210 | Succeeds exactly when every listed model is known, and then yields the index of the config. |
| Indexes.RoutingAgreesWithScan | internal/indexes/indexes.go:79-105 | For every model list and every request, index lookup equals a plain scan: the models with that very name, else those sharing the first declared pattern that matches, sorted; else none. |
| Indexes.IndexedKeyRoutesAsScan | internal/indexes/indexes.go:149-207 | The same for a key found by its secret in a built index, whose lookup never meets an empty pattern. |
| Indexes.ValidIsBuildable | internal/indexes/indexes.go:162-167 | Validation makes index building total. |
| Indexes.NothingOverwritten | internal/indexes/indexes.go:127-146 | In a valid config every model's entry is its own. |
| Indexes.ProviderNotOverwritten | internal/indexes/indexes.go:127-132 | And every provider's. |
| Indexes.CandidatesResolve | internal/indexes/indexes.go:162-189 | Every candidate of a valid config resolves to a model whose provider is indexed and is what parsing the id yields. |
| Routing.ConfigRoutes | internal/indexes/indexes.go:119-210 | From config to candidates, past all tables: a request under a known secret gets exactly the models its key lists under the alias that serves it, by priority and then in the key's order, each found with the provider and upstream name the config declares. |
| Routing.SecretsAreKnown | internal/indexes/indexes.go:205-207 | The secrets found are those of the config. |
| Routing.NamesListed | internal/indexes/indexes.go:181-204 | A key's list of names holds each plain alias once, in order, and no pattern. |
| Routing.IDsListed | internal/indexes/indexes.go:133-147 | The ids on the management list are those the providers offer, in order. |
| Management.Runtime.ApplyAndCommit | internal/management/apply.go:16-39 | Validate, write, build, swap: the state moves as a whole or not at all, and no build error can follow the write. |
| Management.Runtime.ReloadConfig | internal/management/handlers.go:100-119 | A reload commits what the file holds, if it is valid, or changes nothing; a file that was not edited is accepted and changes nothing. |
| Management.Runtime.Handle | internal/management/apply.go:43-50 | Every edit keeps disk, raw, expanded and indexed config of one piece; a rejected one leaves all four. |
| Management.Runtime.RunAll | internal/management/apply.go:16-50 | Any run of requests on the runtime, with edits of the file between them, leaves a valid config and its index of one piece, moves raw config and file as the events say, meets no build error, and without such edits leaves raw config and file equal. |
| Management.DiskFollows | internal/management/apply.go:16-39 | Without edits of the file, no run of requests parts the raw config from what the file holds. |
| Management.DeletionIsSafe | internal/management/providers.go:58-79 | Dropping a provider of a valid config leaves a valid config if and only if no key references it. |
| Management.CheckedDeletionCommits | internal/management/providers.go:65-78 | A deletion past the in-use check can fail only in writing the file. |
| Management.CreateThenDelete | internal/management/providers.go:17-79 | Deleting a provider just created gives the config back. |
| Edits.EditsWhatItNames | internal/management/apikeys.go:13-69 | Every request on a config in force is refused for exactly its reason, or aims at the config with just its own entry added, exchanged or gone and every other in place, and commits to it exactly when that is valid and the file can be had. |
| Limiter.Limiter.Acquire | internal/concurrency/limiter.go:27-39 | Refuses exactly at the limit; takes one slot when limited and none when not. |
| Limiter.Limiter.Release | internal/concurrency/limiter.go:41-49 | Gives one slot back and stores no zero. |
| Limiter.Slot.Call | internal/concurrency/limiter.go:37-38 | Only the first call of a limited slot releases. |
| Limiter.ReleaseCounts | internal/concurrency/limiter.go:41-49 | A release lowers its own provider's count by one and no other. |
| Limiter.ReleaseUndoesTake | internal/concurrency/limiter.go:27-49 | A release undoes its acquire, whatever else is held. |
| Limiter.ReleaseCommutes | internal/concurrency/limiter.go:27-49 | A release commutes with another request's acquire. |
| Failover.Counter.OnFailure | internal/failover/failover.go:35-43 | One more failure in the history, and the stored map still holds exactly the running streaks. |
| Failover.Counter.OnSuccess | internal/failover/failover.go:46-50 | One success in the history; the same. |
| Failover.Counter.ShouldSkip | internal/failover/failover.go:55-73 | True exactly when the pair's own failures since its last success or expiry reach max(1, maxFail) and are not stale; a stale streak expires. |
| Failover.StreakIsRun | internal/failover/failover.go:35-73 | The streak is the run of failures the pair's own history ends in, and as old as the last of them. |
| Failover.StreakNeverPassesThreshold | internal/failover/failover.go:55-73 | With fixed settings, requests one after another never push a streak past the threshold. |
| Failover.BlockedUntilStale | internal/pipeline/pipeline.go:173-176 | At the threshold no request attempts the pair until its last failure goes stale. |
| Failover.StaleIsRetried | internal/failover/failover.go:66-71 | The first request after that does, with a fresh streak. |
| CallLog.Recorder.Record | internal/calllog/calllog.go:70-81 | The ring holds the newest entries of the history. |
| CallLog.Recorder.Recent | internal/calllog/calllog.go:85-101 | Whatever its three unlocked reads of the count saw, it answers the newest entries at the time of the lock, newest first; more than the limit exactly when the count passed the limit between the second read and the third; min(limit, retained) when undisturbed. |
| CallLog.LimitCanBeExceeded | internal/calllog/calllog.go:86-91 | A run of the ring in which a limit of two yields four entries. |
| Usage.Recorder.Record | internal/usage/usage.go:65-84 | The rows stay the exact sums of the history, one for each key that occurs. |
| Usage.Recorder.Snapshot | internal/usage/usage.go:87-116 | Every key once, with its exact sums, in order. |
| Usage.RowsAddUp | internal/usage/usage.go:65-84 | The rows add up to the whole history. |
| Usage.RowIsColumns | internal/usage/usage.go:65-84 | Each number of a row is the sum of its own column over the attempts with that key. |
| Archive.Writer.Enqueue | internal/archive/archive.go:80-92 | A record is taken unless the writer is closed or the queue full. |
| Archive.Writer.Drain | internal/archive/archive.go:108-113 | Everything accepted is written, in order. |
| Archive.Writer.Close | internal/archive/archive.go:98-106 | After closing, everything accepted has been written. |
| Archive.RunKeepsInv | internal/archive/archive.go:80-113 | Every interleaving of producers, closers and the writer keeps the lock, flow and fate invariants. |
| Archive.NoPanicInOrder | internal/archive/archive.go:80-113 | No send hits a closed channel, none is closed twice, and accepted records are written, in hand or queued in acceptance order, one per accepted call. |
| Archive.ClosedMeansWritten | internal/archive/archive.go:98-106 | When a call of Close has returned, every accepted record is written. |
| Archive.NothingAfterClose | internal/archive/archive.go:80-92 | Nothing is accepted once the channel is closed. |
| Archive.RefusalsHaveCause | internal/archive/archive.go:83-91 | A record is refused only by a step that finds the writer closed or its queue full. |
| Attempt.Relay | internal/pipeline/stream.go:178-238 | Writes the head before the first byte and once; client, counts and sink get all that was consumed of the body, line by line. |
| Attempt.AttemptStream | internal/pipeline/stream.go:69-238 | Retryable exactly when nothing was committed, and then neither client nor sink has seen any of the attempt; a committed one wrote one head and the whole relay. |
| Attempt.AttemptNonStream | internal/pipeline/stream.go:29-55 | Retryable exactly on an error or a retryable status; a 2xx body is translated if it can be, and the raw body is kept. |
| Attempt.LinesConcat | internal/pipeline/stream.go:182-191 | The lines read are the body cut up; nothing is lost. |
| Attempt.ConsumedIs | internal/pipeline/stream.go:186-238 | A stream that ends, well or in an error, is taken in to its last byte; one given up on, to its last line end and no further. |
| Attempt.DataFeeds | internal/pipeline/stream.go:118-173 | However a data line spaces and ends its payload: the end mark feeds the translator's nil chunk, JSON feeds itself, anything else nothing. |
| Attempt.PassthroughIsWholeRewrite | internal/pipeline/stream.go:125-154 | However a stream is cut into lines, passthrough sends one rewrite of the whole raw stream. |
| Attempt.TranslationIsWholeRewrite | internal/pipeline/stream.go:155-173 | A translated stream is one rewrite of the translator's output over the data events and nil chunks, and of nothing else. |
| Attempt.StreamCounts | internal/pipeline/stream.go:259-290 | After any stream the input-side counts are the last positive ones and the cumulative ones the largest. |
| Attempt.StreamTotal | internal/pipeline/stream.go:259-378 | The total recorded for a whole stream is the largest reported if any event reported a positive one, else the sum derived from the merged counts; the other counts are as merged, and finalising again changes nothing. |
| Pipeline.Handler.RecordUsage | internal/pipeline/pipeline.go:361-411 | One row's worth in the aggregate when enabled, one entry in the log when enabled, of the same attempt. |
| Pipeline.Handler.TryCandidate | internal/pipeline/pipeline.go:173-289 | One turn of the loop: its verdict, one failure or success at most, the slots as before, and nothing written unless the turn ends the request. |
| Pipeline.Handler.RunCandidates | internal/pipeline/pipeline.go:173-302 | The loop: one head, the verdicts in order, the recorders with one record per attempt, at most one archive record. |
| Pipeline.Handler.ServeProxy | internal/pipeline/pipeline.go:77-303 | Every request is answered exactly once, on every path; one turned away is answered by the first check it fails and touches nothing shared. |
| Pipeline.TriedInOrder | internal/pipeline/pipeline.go:173-289 | Candidates are tried in order, at most once each; only the last verdict ends the request, and otherwise the list was exhausted. |
| Pipeline.AnswerIsExact | internal/pipeline/pipeline.go:289-302 | The committed attempt's status; with none committed, 529 exactly when some slot was refused and 502 exactly when none was. |
| Pipeline.FailuresAreCountedOnce | internal/pipeline/pipeline.go:239-278 | Each attempt that wrote nothing is one failure of its pair; skipped, busy and unroutable candidates are none. |
| Pipeline.ArchiveMatchesDelivery | internal/pipeline/pipeline.go:250-288 | At most one archive record, for a committed 2xx; a passthrough client received one rewrite of exactly the stream archived. |
| Records.TurnIsExact | internal/pipeline/pipeline.go:173-235 | Which candidates are skipped, out of reach, busy or attempted, told from the pair's failures, the config, the registry and the slots. |
| Records.RefusalIsExact | internal/pipeline/pipeline.go:77-150 | 403, 400, 404 and 501 exactly when the protocol is not allowed, no model is named, the key has no candidate, or none is in reach. |
| Records.AttemptIsTold | internal/pipeline/pipeline.go:236-289 | Each attempt leaves one log entry, one usage row if enabled, one archive record if it is due, and one failure or success if it counts, each told from what was sent and what came back. |
| Records.RequestIsTold | internal/pipeline/pipeline.go:361-411 | Over a whole request, log and usage records run in step with the bodies sent: entry k tells of the model body k asked for, where it went, and the status, reason and token counts that came. |
| Records.ArchiveIsTold | internal/pipeline/pipeline.go:316-351 | A request is archived exactly when archiving is on and the client was answered with a 2xx, once, with the client's own body and the upstream's of the last thing sent. |
| Records.AnswerIsUpstreams | internal/pipeline/pipeline.go:266-288 | A client served with a whole body, or with a stream's refusal, reads the answer of the last upstream and nothing of those tried before. |
| Outgoing.RulesKeepModel | internal/payload/engine.go:21-31 | On text as on trees: accepted rules leave the model a body asks for alone. |
| Outgoing.ModelsAreNamed | internal/indexes/indexes.go:127-146 | In the indexes of an accepted config every model has an upstream name, as the next result asks. |
| Outgoing.RequestSendsItsModels | internal/pipeline/pipeline.go:203-223 | Over a whole request, one body goes out per attempt, to the endpoint of its candidate's own provider: the payload rules applied to the client's own body, renamed and translated, with nothing of earlier candidates; and it asks for that candidate's upstream model exactly when its raw JSON transfers. |
| OutgoingRuns.EverythingSentAsksForItsModel | internal/pipeline/pipeline.go:203-223 | The same over every interleaving of requests with any snapshots. |
| TextRelay.TranslatedTextArrives | internal/pipeline/stream.go:155-173 | Whatever lines the upstream sends, the bytes a translating relay sends, framed and rewritten to the alias, hold for a reader of the client's protocol the text that a reader of the upstream's protocol finds in those lines. |
| TextRelay.ArchivedTextIsDelivered | internal/pipeline/pipeline.go:250-288 | Over a whole request, failed attempts included: when a translated stream is archived, the client's bytes and the archived bytes hold the same text, each read in its own protocol. |
| Requests.RunKeepsInv | internal/pipeline/pipeline.go:173-302 | Every interleaving of requests, each with its own configuration snapshot, keeps the request, slot and failure invariants. |
| Requests.SlotsAreConserved | internal/concurrency/limiter.go:27-49 | Over every interleaving a provider's count is the number of requests holding one of its slots, no zero is stored, and no count passes the largest limit any snapshot gave, even when closures are called twice. |
| Requests.UsageIsEveryAttempt | internal/pipeline/pipeline.go:242-268 | Along every interleaving from the start, the usage recorder has been given each recorded attempt of each request once, and nothing else. |
| Requests.SentIsEveryAttempt | internal/pipeline/pipeline.go:236-262 | Along every interleaving, what has gone out is one body per attempt of each request, and nothing else. |
| Alone.OneTurn | internal/pipeline/pipeline.go:173-289 | While the others pause, one request at one candidate can complete its turn, which leaves what one turn of the loop leaves. |
| Alone.AloneCanFinish | internal/pipeline/pipeline.go:173-302 | While the others pause, a request can always run on until it is answered. |
| Alone.AloneIsServe | internal/pipeline/pipeline.go:173-302 | Every sequence of actions of one request alone that ends with it answered has met the verdicts of the sequential loop, left counter and slots as the loop does, and answered as they say. |
| Requests.NoSlotLeft | internal/pipeline/pipeline.go:227-266 | When every request has been answered no slot is taken. |
| Requests.EveryRequestAnsweredOnce | internal/pipeline/pipeline.go:173-302 | However requests interleave, each is answered once, as its own verdicts say. |
| Requests.FailuresAreCounted | internal/pipeline/pipeline.go:239-265 | The failures counted for a pair are exactly the attempts on it, by any request, that wrote nothing. |
| Payload.ApplyRules | internal/payload/engine.go:35-61 | Each rule in turn, if it matches the body as it then is, its params in some order of the map. |
| Payload.ApplyFilter | internal/payload/engine.go:65-83 | The matching paths, deleted in reverse string order. |
| PayloadApply.Apply | internal/payload/engine.go:21-31 | The five phases: path by path, what shows at the end is told from the rules that matched, each on the body it saw. |
| PayloadApply.SteadyApply | internal/payload/engine.go:21-31 | For diverging object paths and rules that match alike before and after, in every map order: a filtered path has nothing; else the last raw override shows, else the last override, else what the body held, else the first default, else the first raw default. |
| PayloadLaws.ApplyKeepsModel | internal/payload/engine.go:21-31 | Rules the validator accepts leave the top-level model alone through all five phases, in any map order. |
| PayloadLaws.ProtectedKeys | internal/config/validate_payload.go:86-93 | A path the validator lets pass does not start at the model field. |
| PayloadLaws.PutsCommute | internal/payload/engine.go:86-98 | Writes at object paths of which neither is a prefix of the other commute, errors included. |
| PayloadLaws.GetAcross | internal/payload/engine.go:86-98 | A write is not seen from such another path. |
| PayloadLaws.SetShows | internal/payload/engine.go:86-98 | A write that does not fail shows, at any path in any body, array indices included. |
| PayloadLaws.SetFailsWhenBlocked | internal/payload/engine.go:86-98 | A write fails exactly where it meets an array with a key that is no index. |
| PayloadLaws.ArrayWrite | internal/payload/engine.go:86-98 | A write into an array leaves every other item in place and fills up with nulls. |
| PayloadLaws.PhaseIsDeterministic | internal/payload/engine.go:35-61 | For rules of such paths a phase gives one result in every map order. |
| PayloadLaws.LastOverrideWins | internal/payload/engine.go:49-61 | Among overrides the last write to a path wins. |
| PayloadLaws.FirstDefaultWins | internal/payload/engine.go:33-47 | Among defaults what is there stays, else the first write wins. |
| PayloadLaws.WinnerOfPhase | internal/payload/engine.go:35-61 | The winner of a whole phase, over all its matching rules. |
| PayloadFilter.ExactIffDecreasing | internal/payload/engine.go:76-81 | Deleting one index after another removes exactly the indices named, on every array, if and only if they strictly decrease. |
| PayloadFilter.FilterExactIffDecreasing | internal/payload/engine.go:65-83 | The filter is right for every body if and only if the reversed string order of its element paths is a strictly decreasing order of their indices. |
| PayloadFilter.EqualWidthsDecrease | internal/payload/engine.go:76-81 | Distinct indices of one width meet that condition. |
| PayloadFilter.NineBeforeTen | internal/payload/engine.go:76-81 | Indices 9 and 10 do not: element 11 goes in place of element 10. |
| PayloadExact.FilterExactIffSafe | internal/payload/engine.go:65-83 | For object keys and items of any arrays together, arrays within arrays included, none repeated or inside another and equal indices spelt alike: every body loses exactly the nodes the paths name in it if and only if, in reversed string order, no deletion moves what a later path names. |
| PayloadSweep.AlignedIsSafe | internal/payload/engine.go:76-81 | Distinct paths whose meeting indices have one width meet that condition. |
| PayloadSweep.FilterTakesOutWhatIsNamed | internal/payload/engine.go:65-83 | So the filter phase, over the paths of all matching rules, takes out of the body exactly the nodes such paths name in it. |
| PayloadSweep.DropsAreSweep | internal/payload/engine.go:76-81 | In an order in which no deletion moves what a later path names, deleting one path after another is taking out all named nodes at once. |
| PayloadSweep.MarksCommute | internal/payload/engine.go:65-83 | What a set of paths names in a body does not depend on their order. |

## Left out

- HTTP, gin, sockets, timers, logging and YAML: an upstream call is an outcome chosen freely (an error, or a status, the bytes that arrive, and how they end), a file write succeeds or changes nothing, and copying or marshalling a config is the identity.
- gjson and sjson on text: SSE rewriting takes them as functions on strings, payload rules as get, set and delete on a JSON tree, with plain dot-separated paths; path escapes, modifiers and `-1` appends are not modelled.
- ruleMatches: the clauses of a payload rule are one predicate on the clauses and the body, since only their truth matters to the phases.
- Pipeline.Handler.ServeProxy: whether the client's body can be read, the clock and the upstream's answer are inputs.
- Requests.RunKeepsInv: does not follow the client's bytes or the archive queue, which Pipeline and Archive treat; a request's snapshot is fixed when it arrives.
- Attempt.AttemptStream: the reader goroutine and the timer are reduced to the bytes consumed before the stream ended, idled out or lost its client; write errors to the client are ignored, as the code ignores them.
- Attempt.StreamCounts: which JSON fields hold the counts of each protocol is an input; only how they are merged is modelled.
- Indexes.BuildKey: hands over the contents of the finished context; that both lookup maps point at one object is not captured, and nothing changes it after the build.
- Usage.Recorder.Record: sums are unbounded integers; the wrap-around of 64-bit counters is not modelled.
- Failover.Counter.ShouldSkip: a reset time so long that its nanoseconds overflow 64 bits is not modelled.
- Validate.Validate: says which problems are reported; their order and multiplicity are not captured, because the code ranges over maps.
- Norm.EmbeddedSettles: the compaction of raw JSON is a function with the laws of `Norm.Lawful` (the result is valid, not blank and already compact); how it spells a value is not modelled.
- Outgoing.RequestSendsItsModels: how a body's text is read and written is a set of functions with the laws of `Outgoing.Lawful` (setting the model sets it and nothing else, a body written asks for the model it was built with, the tree shows the same model), and the payload engine on text is tied to `Payload` on trees by `Outgoing.RunsRules`.
- ReplyRelay.WholeAnswerArrives: how a body's text is read and written is a pair of functions with the laws of `ReplyRelay.Legible`: what is written reads back as the same answer, and rewriting model fields changes nothing else of it.
- ModelRewrite.RewrittenOnlyAlias: rests on the laws `ModelRewrite.Lawful` and `ModelRewrite.Readable` of the JSON library: white space around a text does not matter, and a field set on one line stays on it.
- PayloadApply.SteadyApply: needs rules that match the same before and after the writes and object paths that diverge; in general `PayloadApply.Apply` tells the result from the body each rule saw.
- TextRelay.TranslatedTextArrives: how JSON is written and looked up is a pair of functions with the law `TextRelay.Legible`, that what is written for an event reads back to the event's text, also after the alias rewrite; tool calls and event order on the wire are left to `ToolCalls` and `Brackets`.
- PayloadExact.FilterExactIffSafe: repeated paths, paths inside one another and indices with leading zeros are covered only by the sufficient half, `PayloadSweep.DropsAreSweep`, since a deletion gone wrong can be hidden by deleting what is around it.
- Payload.ApplyRules: a raw param that is not a JSON string is never written here; the validator reports it, so no accepted config has one.
- PayloadLaws.PhaseIsDeterministic: needs object paths with no numeric keys and none a prefix of another; for other params the result can depend on map order.
- Management.Runtime.RunAll: is about operations one after another; concurrent edits are not excluded by the code, which holds no lock between its snapshot and its swap.
- Response headers, URL building, header and token parsing, error-message extraction and the configuration getters: easy members.
- The `/v1/models` and management listings: they copy what the model already describes.
