# copilot-bridge Python clients, modelled in Dafny

This project models the Python client libraries of copilot-bridge. They
talk to a VS Code extension that exposes GitHub Copilot over HTTP, with
server-sent events for streaming, and over gRPC. The model covers the
client-side protocol handling:

- **Requests.** How `CopilotClient` and `CopilotGrpcClient` turn a prompt or
  a message list plus optional `model`/`vendor`/`system_prompt` into a
  request body. This is where Python truthiness decides which keys are sent.
  Also covered: the headers, and the URL each request goes to.
- **The SSE reader of `chat_stream`.** A text buffer grows read by read and
  is cut at its first blank line. Its `data: ` lines are decoded into frames,
  which either yield text or end the stream.
- **The gRPC `chat_stream` loop** over `ChatChunk` frames.
- **`chat_json`.** The best-effort JSON extraction: whole text, then the
  first fenced block, then the brace span, then an error. It is written
  once in the interface and repeated in the HTTP client with a different
  exception.
- **Reply mappings.** How `status`, `list_models`, `chat` and `chat_full`
  fill the response records, and the records' defaults.
- **The `ask_copilot` client cache.**

Modules, one file each:

| file | module | what |
|---|---|---|
| `text.dfy` | `Text` | `str.isspace`, `strip`, `rstrip`, `startswith`, `split`, `"".join` |
| `interface.dfy` | `Interface` | the dataclasses, message inputs, exceptions, stream results and the three-tier `chat_json` |
| `sse.dfy` | `Sse` | the buffer loop of `_post_stream`, an imperative method proved against a function of the whole body text |
| `http_client.dfy` | `HttpClient` | `CopilotClient` and the module-level cache of `ask_copilot` |
| `grpc_client.dfy` | `GrpcClient` | `CopilotGrpcClient` |

Things the model takes as parameters:

- **JSON decoding.** `json.loads` is a parameter `parse: string -> Option<J>`,
  where `None` stands for `JSONDecodeError`.
- **SSE frames.** Decoding a `data: ` payload into the three keys the reader
  looks at is a parameter `decode: string -> Option<SseFrame>`.
- **Replies.** A reply is its decoded body: typed records whose keys are
  absent (`None`) or present.
- **Streams.** An HTTP stream is the sequence of decoded `resp.read(1024)`
  results, where an empty string means end of body. A gRPC stream is the
  sequence of frames the stub returns. A unary gRPC call is a function from
  the request to the reply the stub returns.

`Truthy(o)` is Python's truth value of an `Optional[str]`: it holds when the
value is present and non-empty. Whitespace is the full `str.isspace` table,
which is also what `\s` matches in a `str` pattern.

## Model

| member | source | states |
|---|---|---|
| Text.IsSpace | clients/python/copilot_interface.py:131-133 | the whitespace `\s` and `strip()` act on includes the blank, tab and line breaks, and never any character JSON or its fences are made of (backticks, braces, brackets, quotes, colons, commas, letters, digits) |
| Text.StartsWith | clients/python/copilot_client.py:268 | `startswith(prefix)` holds iff the string is at least as long as the prefix and agrees with it at every position |
| Text.SkipSpaces | clients/python/copilot_interface.py:131 | `\s*` skips a maximal run of whitespace: everything skipped is whitespace, and the next character is not |
| Text.TrimEnd | clients/python/copilot_interface.py:133 | the trailing whitespace run of a slice is dropped, and the new last character is not whitespace |
| Text.Strip | clients/python/copilot_interface.py:133 | `strip()` returns a slice of the input, everything cut off on either side is whitespace, and the result neither starts nor ends with whitespace |
| Text.StripPadded | clients/python/copilot_interface.py:133 | stripping a whitespace-free-edged text surrounded by any whitespace gives back exactly that text |
| Text.RStrip | clients/python/copilot_client.py:54 | `rstrip("/")` is a prefix of the input that does not end with `/`, and only `/` characters were removed |
| Text.RStripIdempotent | clients/python/copilot_client.py:54 | stripping trailing slashes twice is stripping them once |
| Text.Split | clients/python/copilot_client.py:267 | `split("\n")` gives at least one piece, and no piece contains the separator |
| Text.IndexOf | clients/python/copilot_client.py:267 | the first occurrence of a character: it is there, and not before |
| Text.JoinSplit | clients/python/copilot_client.py:267 | joining the pieces of a split with the separator gives back the original string |
| Text.Concat | clients/python/copilot_client.py:264 | no reads join to the empty buffer and a single read joins to itself; with `ConcatAppend` this fixes the join of any sequence of reads |
| Text.ConcatAppend | clients/python/copilot_client.py:264 | appending reads to the buffer in two runs is appending their concatenation |
| Interface.Or | clients/python/copilot_client.py:197-198 | `a or b` is `a` when `a` is non-empty, else `b` |
| Interface.ResponseDefaults | clients/python/copilot_interface.py:29-59 | every string field of `StatusResponse`, `ModelInfo` and `ChatResponse` defaults to `""`, every integer to `0`, and every `ChatOptions` field to `None` |
| Interface.FindFence | clients/python/copilot_interface.py:131 | the first "```" at or after a position, or none at all from there |
| Interface.FenceSpan | clients/python/copilot_interface.py:131 | a found pair is an opening fence and a closing fence that starts after the opening one ends |
| Interface.FenceSpanIsLeftmostShortest | clients/python/copilot_interface.py:131 | a fence pair is found iff some pair exists, and the one found is leftmost and, among those, shortest (the lazy `*?`) |
| Interface.TagEnd | clients/python/copilot_interface.py:131 | `(?:json)?` takes the `json` tag exactly when it follows the opening fence, and the tag never runs into the closing fence |
| Interface.GroupStart | clients/python/copilot_interface.py:131 | the captured group starts after the opening fence and its optional `json` tag, everything skipped after the tag is whitespace, the group's first character is not whitespace, and no fence lies in between |
| Interface.FenceCandidate | clients/python/copilot_interface.py:131-133 | `match.group(1).strip()` is the slice of the reply between the tag and the closing fence with whitespace cut on both sides: everything cut is whitespace, and the document neither starts nor ends with whitespace |
| Interface.BraceSpan | clients/python/copilot_interface.py:134 | the brace span runs from the first `{` to the last `}`, and exists iff that `}` comes after that `{` |
| Interface.LastIndexOf | clients/python/copilot_interface.py:134 | the last occurrence of a character: it is there, and not after |
| Interface.BraceSpanIsLeftmostLongest | clients/python/copilot_interface.py:134-136 | a brace span is found iff some `{`…`}` exists, and the one found is leftmost and, among those, longest (the greedy `*`) |
| Interface.Attempt | clients/python/copilot_interface.py:133-136 | `json.loads(candidate)` either decodes, exactly when `parse` accepts the document, or fails with that document |
| Interface.Extract | clients/python/copilot_interface.py:126-137 | whatever is decoded comes from a slice of the reply, a document that fails to decode is a slice of the reply, and the excerpt when no JSON is found is the first min(500, length) characters |
| Interface.ChatJson | clients/python/copilot_interface.py:114-137 | a plain `ValueError` (not its `JSONDecodeError` subclass) is raised iff the whole text does not parse and there is neither a fence pair nor a brace span; its message is the fixed prefix followed by the excerpt; every other failure is a `JSONDecodeError` |
| Interface.WholeTextFirst | clients/python/copilot_interface.py:127-130 | a reply that parses as a whole is returned as parsed, and neither extraction tier runs |
| Interface.FenceTierIsFinal | clients/python/copilot_interface.py:131-133 | once the whole text fails and a fence pair exists, the result is the attempt on the fence document: it is decoded, or its decode error propagates, and the brace tier is never tried |
| Interface.BraceTierOnlyWithoutFence | clients/python/copilot_interface.py:134-136 | once the whole text fails and there is no fence pair, a brace span decides: the result is the attempt on the span from the first `{` to the last `}`, decoded when it parses and its decode error otherwise |
| Interface.NoJsonOnlyWithoutCandidates | clients/python/copilot_interface.py:127-137 | no JSON is reported exactly when the whole text fails and neither a fence pair nor a brace span is found |
| Interface.FencedRoundTrip | clients/python/copilot_interface.py:131-133 | take a document with no backticks and no surrounding whitespace, put it inside a "```json" fence after backtick-free prose, and add any text after: the fence tier recovers exactly that document |
| Interface.EmbeddedRoundTrip | clients/python/copilot_interface.py:134-136 | take a `{`…`}` document after prose with no `{`, followed by text with no `}`, with no backticks anywhere: the brace tier recovers exactly that document |
| Sse.FindSeparatorFrom | clients/python/copilot_client.py:265-266 | the first `"\n\n"` at or after a position, or none from there |
| Sse.FindSeparator | clients/python/copilot_client.py:265-266 | `"\n\n" in buffer` holds iff a separator is found, and `split("\n\n", 1)` cuts at the first one |
| Sse.Events | clients/python/copilot_client.py:265-266 | repeated `split("\n\n", 1)` gives an event iff the text holds a blank line, and each event uses up its own separator |
| Sse.EventsRoundTrip | clients/python/copilot_client.py:265-266 | the events, each followed by its blank line, and then the leftover give back the text: cutting loses and adds nothing |
| Sse.EventsAreSeparatorFree | clients/python/copilot_client.py:265-266 | no event and not the leftover contains a blank line, and no event ends with a line break; with the round trip, every event therefore ends at the first blank line after the previous one |
| Sse.SeparatorStable | clients/python/copilot_client.py:264-266 | a separator already in the buffer stays the first one whatever is read next |
| Sse.EventsStep | clients/python/copilot_client.py:265-266 | cutting the first event off the buffer is cutting it off the buffer followed by all text still to be read |
| Sse.DataLines | clients/python/copilot_client.py:267-269 | no more payloads than lines, and every payload is the text after `data: ` of a line that starts with it |
| Sse.DataLinesComplete | clients/python/copilot_client.py:267-269 | every line starting with `data: ` gives its payload, so an event has no payload exactly when none of its lines starts with `data: ` |
| Sse.DataLinesAppend | clients/python/copilot_client.py:267-269 | the `data: ` payloads of two runs of lines are those of the first followed by those of the second |
| Sse.Payloads | clients/python/copilot_client.py:265-269 | every payload comes from the `data: ` lines of one of the events |
| Sse.PayloadsComplete | clients/python/copilot_client.py:265-269 | every payload of every event is among the payloads |
| Sse.PayloadsNone | clients/python/copilot_client.py:265-269 | there is no payload exactly when no event has one |
| Sse.PayloadsAppend | clients/python/copilot_client.py:265-269 | the payloads of two runs of events are those of the first followed by those of the second |
| Sse.Ending | clients/python/copilot_client.py:269-273 | a terminal payload never lets the stream run on; it ends quietly iff its frame has a truthy `done`, checked first; otherwise an undecodable payload raises its decode error and a frame with `error` raises `CopilotClientError` with that value |
| Sse.Run | clients/python/copilot_client.py:267-275 | no more fragments than payloads; the stream runs out exactly when no payload is terminal (undecodable, `done` or `error`), and otherwise ends as some terminal payload says |
| Sse.TerminalEndsAlone | clients/python/copilot_client.py:269-273 | a payload is terminal (undecodable, truthy `done`, or carrying `error`) exactly when, on its own, it ends the stream |
| Sse.RunAppend | clients/python/copilot_client.py:267-275 | processing two runs of payloads: the second counts only when the first did not end the stream, and its fragments follow the first's |
| Sse.TerminalIndex | clients/python/copilot_client.py:270-273 | the first payload that ends the stream (done, error or undecodable), and none before it |
| Sse.RunCharacterized | clients/python/copilot_client.py:268-275 | the fragments yielded are exactly the present `content` values, empty ones included, of the frames before the first terminal one, in order; the stream ends as that frame says, or runs out |
| Sse.DoneEndsQuietly | clients/python/copilot_client.py:270-271 | a truthy `done` ends the stream without yielding or raising, even when `error` is also present, and nothing after it is read |
| Sse.StopsAfter | clients/python/copilot_client.py:269-273 | nothing after a terminal payload is processed |
| Sse.UntilEof | clients/python/copilot_client.py:261-263 | the reads taken are a prefix of the reads, all non-empty, and the read after them is the empty end-of-body read |
| Sse.SplitIrrelevant | clients/python/copilot_client.py:260-266 | two ways of splitting the same body into reads yield the same fragments and end the same way |
| Sse.SseSpec | clients/python/copilot_client.py:258-275 | an empty body, or one with no blank line, yields nothing and ends without error: text not followed by `"\n\n"` is never processed |
| Sse.ReadStream | clients/python/copilot_client.py:258-277 | the buffer loop yields exactly the fragments, and ends exactly as, the event-stream function of the concatenated body |
| Sse.ReadEvent | clients/python/copilot_client.py:267-275 | the line loop of one event yields what the event-stream function adds for its `data: ` lines, and returns or raises exactly when that function ends there |
| Sse.ReadEvents | clients/python/copilot_client.py:265-275 | the inner buffer loop takes complete events off the buffer in order; their payloads are exactly what the event-stream function has next; it yields what that function yields for them; it stops exactly when one of them ends the stream, and otherwise leaves a buffer with no blank line |
| HttpClient.UserMessage | clients/python/copilot_client.py:187-188 | a bare prompt is sent as the dict with exactly `role` and `content`, the same dict a user `ChatMessage` with that text is sent as |
| HttpClient.WireItem | clients/python/copilot_client.py:191-194 | a dict element is sent unchanged; a message object is sent as a dict with exactly `role` and `content`, from which the message is read back unchanged |
| HttpClient.WireItems | clients/python/copilot_client.py:191-194 | the message list keeps its length and order, element by element |
| HttpClient.WireMessages | clients/python/copilot_client.py:187-194 | a prompt becomes exactly one `{"role": "user", "content": prompt}` dict, and a list keeps its length and order |
| HttpClient.DictsPassThrough | clients/python/copilot_client.py:191-194 | a list of dicts is sent exactly as given |
| HttpClient.ObjectsBecomeDicts | clients/python/copilot_client.py:192 | a message object is sent as a dict with exactly `role` and `content`, from which the message is read back unchanged |
| HttpClient.Merge | clients/python/copilot_client.py:197-202 | the key is sent iff the argument or the default is non-empty, the argument wins, and an empty value is never sent |
| HttpClient.StatusFromBody | clients/python/copilot_client.py:61-70 | every `/status` key present is copied, and every missing one takes the `StatusResponse` default |
| HttpClient.EmptyStatusIsDefault | clients/python/copilot_client.py:61-70 | an empty `/status` body reads as `StatusResponse()` |
| HttpClient.ModelFromEntry | clients/python/copilot_client.py:76-81 | every key of a model entry that is present is copied, and every missing one takes the `ModelInfo` default |
| HttpClient.ModelsFromEntries | clients/python/copilot_client.py:75-83 | one `ModelInfo` per entry, in the server's order |
| HttpClient.ModelsFromBody | clients/python/copilot_client.py:72-83 | a missing `models` key gives the empty list, and otherwise the models keep their count and order, each read field by field with defaults |
| HttpClient.EmptyModelIsDefault | clients/python/copilot_client.py:76-81 | an entry with no keys reads as `ModelInfo()` |
| HttpClient.ChatText | clients/python/copilot_client.py:107 | `chat` returns the reply's `content` when present and `""` otherwise |
| HttpClient.ChatFromBody | clients/python/copilot_client.py:143-147 | `id`, `model` and `content` are copied when present and take the `ChatResponse` defaults when missing |
| HttpClient.ChatIsFullContent | clients/python/copilot_client.py:105-147 | `chat` returns the `content` field of what `chat_full` returns for the same reply |
| HttpClient.TrailingSlashesIgnored | clients/python/copilot_client.py:54 | a base URL is stored the same however many slashes end it |
| HttpClient.CopilotClient.constructor | clients/python/copilot_client.py:47-57 | the stored base URL is the argument without its trailing slashes, so it never ends with `/`; the key and defaults are stored as given |
| HttpClient.CopilotClient.BuildPayload | clients/python/copilot_client.py:180-205 | `messages` is always sent; `model` and `vendor` are sent iff the argument or the client default is non-empty, the argument winning; `systemPrompt` is sent iff the argument is non-empty, and has no default; no other key is sent |
| HttpClient.CopilotClient.Headers | clients/python/copilot_client.py:207-211 | `Content-Type: application/json` is always sent; `Authorization` is sent iff the API key is non-empty, and is then `Bearer ` followed by the key; nothing else is sent |
| HttpClient.CopilotClient.GetRequest | clients/python/copilot_client.py:213-215 | a GET carries `_headers()` and no body, and its URL is the stored base URL followed by the path |
| HttpClient.CopilotClient.PostRequest | clients/python/copilot_client.py:228-231 | a POST goes to the same URL with the same headers as a GET of that path, and carries the payload |
| HttpClient.CopilotClient.RequestUrls | clients/python/copilot_client.py:213-247 | each request URL is the stored base URL followed by the path, with exactly the path's own slash at the seam |
| HttpClient.CopilotClient.Chat | clients/python/copilot_client.py:85-107 | the built payload is posted to `/chat` with `_headers()`, and the reply's `content` (or `""`) is returned |
| HttpClient.CopilotClient.ChatJson | clients/python/copilot_client.py:149-176 | the same three tiers as the interface's `chat_json`, except that finding no JSON raises `CopilotClientError` instead of a plain `ValueError`, with the same message |
| HttpClient.CopilotClient.ChatStream | clients/python/copilot_client.py:109-130 | the built payload is posted to `/chat/stream` with `_headers()`, and the fragments and the end are those of the event-stream reader |
| HttpClient.Session.constructor | clients/python/copilot_client.py:282 | the cache starts empty, which satisfies the cache invariant |
| HttpClient.Session.AskCopilot | clients/python/copilot_client.py:285-301 | the cached client is kept iff it exists and its stored base URL equals the argument; otherwise a fresh client for that URL, with no key and no defaults, replaces it; a URL ending in `/` therefore always builds a new client, and after a slash-free URL the cache holds exactly that URL; the cached client never stores a trailing slash; the prompt is then sent through `chat` with no vendor |
| HttpClient.TrailingSlashNeverCached | clients/python/copilot_client.py:299-300 | a base URL argument ending with `/` never equals the stored URL of a client built by the constructor |
| HttpClient.SlashFreeUrlIsCached | clients/python/copilot_client.py:299-300 | a base URL without a trailing slash is stored unchanged, so a second call with it reuses the client the first one built |
| GrpcClient.OrEmpty | clients/python/copilot_grpc_client.py:45-46 | `x or ""` is `x` when it is non-empty, else `""` |
| GrpcClient.RpcMessages | clients/python/copilot_grpc_client.py:135 | a list maps one to one and in order onto role/content messages, and a dict element raises `AttributeError` |
| GrpcClient.ChunkStream | clients/python/copilot_grpc_client.py:115-121 | nothing yielded is empty, there are no more fragments than frames, the frames run out exactly when none carries an error or `done`, and a raise is a `RuntimeError` whose message starts with `gRPC stream error: ` |
| GrpcClient.Stops | clients/python/copilot_grpc_client.py:115-119 | a frame stops the loop exactly when, arriving on its own, it ends the stream |
| GrpcClient.FirstStop | clients/python/copilot_grpc_client.py:115-119 | the first frame carrying an error or `done`, and none before it |
| GrpcClient.NonEmptyContents | clients/python/copilot_grpc_client.py:120-121 | the yielded contents are never empty and no more than the frames |
| GrpcClient.ChunkStreamCharacterized | clients/python/copilot_grpc_client.py:115-121 | the fragments are exactly the non-empty contents of the frames before the first error or `done` frame, in order; that frame raises `RuntimeError("gRPC stream error: " + error)` when its error is non-empty, even with `done` set, and otherwise ends the stream quietly; without one the frames run out |
| GrpcClient.LaterFramesIgnored | clients/python/copilot_grpc_client.py:115-119 | no frame after the first error or `done` frame is consumed |
| GrpcClient.ErrorBeatsDone | clients/python/copilot_grpc_client.py:116-119 | a frame with both an error and `done` raises |
| GrpcClient.CopilotGrpcClient.constructor | clients/python/copilot_grpc_client.py:38-48 | the address is stored as given, and a missing or empty default model or vendor is stored as `""` |
| GrpcClient.CopilotGrpcClient.BuildRequest | clients/python/copilot_grpc_client.py:125-142 | a prompt is one `user` message and a list maps one to one; `model` and `vendor` are the argument when non-empty, else the client default; `system_prompt` is the argument or `""`; a dict in the list raises `AttributeError` |
| GrpcClient.CopilotGrpcClient.ChatStream | clients/python/copilot_grpc_client.py:106-121 | a request that cannot be built raises before any frame is read; otherwise what it yields and how it ends are exactly what the frame-stream function gives for the frames |
| GrpcClient.ReadFrames | clients/python/copilot_grpc_client.py:115-121 | the `for chunk in stream` loop yields exactly the fragments, and ends exactly as, the frame-stream function of the frames |
| GrpcClient.CopilotGrpcClient.Chat | clients/python/copilot_grpc_client.py:82-92 | a request that `_build_request` cannot build raises its `AttributeError` before the call; otherwise the built request is sent and the reply's content is returned, which is the content `chat_full` reports, and it raises exactly when `chat_full` does |
| GrpcClient.CopilotGrpcClient.ChatFull | clients/python/copilot_grpc_client.py:94-104 | a request that `_build_request` cannot build raises its `AttributeError` before the call; otherwise the built request is sent and the reply's id, model and content are copied unchanged |
| GrpcClient.CopilotGrpcClient.Status | clients/python/copilot_grpc_client.py:61-69 | every status field of the reply is copied unchanged |
| GrpcClient.CopilotGrpcClient.ListModels | clients/python/copilot_grpc_client.py:71-80 | one `ModelInfo` per model of the reply, in order, with every field copied |
| GrpcClient.UnsetRepliesAreDefaults | clients/python/copilot_grpc_client.py:61-69 | a reply with every field unset reads as the default `StatusResponse`, and likewise for `ChatResponse` |

## Left out

- Network I/O is not modelled: `urlopen`, the timeouts (30 s, 300 s), `resp.close()`, gRPC channels, stubs and `close`/`__enter__`/`__exit__`. `_get` and `_post` appear only as the request they send and the decoded body they return.
- The translation of `HTTPError` and `URLError` into `CopilotClientError("HTTP {code}: {body}")` and the "Cannot connect" message is not modelled. It depends on transport failures outside the model.
- `json.loads`, `json.dumps` and the protobuf stubs are foreign code and become parameters. JSON validity is whatever `parse` accepts.
- Ill-typed JSON values are not modelled: replies and SSE frames are typed records. For example, a `/status` `port` that is a string, or a `models` list holding non-objects, is not modelled. In an SSE frame, `"error": null` raises `CopilotClientError(None)` and a non-string `content` is yielded as it is; `SseFrame` holds only strings in those keys.
- A `data: ` payload that is JSON but not an object makes `.get` raise `AttributeError`. The model folds this into the same `None` from `decode` as a decode failure, and reports both as a decode error.
- Per-read UTF-8 decoding is not modelled: a multi-byte character split across two 1024-byte reads raises in `chunk.decode("utf-8")`. The reads are taken as already-decoded strings.
- Sse.ReadStream: `Finished` (the generator returns on `done`) and `Exhausted` (the body ran out) are both an ordinary end of iteration to the caller. The model keeps them apart so that the terminal rule can be stated.
- HttpClient.CopilotClient.ChatJson and Interface.ChatJson work on the text `chat` returned. That `chat` is called exactly once with the caller's arguments is shown only by taking that text as the parameter.
- Message lists are modelled as dicts or `ChatMessage` objects. Other element types are not modelled: an object with `role` but no `content` raises in `_build_payload`.
- Server behaviour is not part of this model: routing, authentication, model resolution, the request counter and SSE emission.
- The interactive test script and the `__main__` block are not part of this model.
