# JigsawStack JS SDK — a verified model of its core

This project models the local logic of the JigsawStack JavaScript SDK in Dafny. Most of the SDK is endpoint wrappers that forward their arguments to one HTTP helper. The parts with behaviour of their own are:

- **The cancellable stream adapter `Stream`** (`src/lib/streaming.ts`). It covers the reader, the decoding async generator, the abort-aware iterator wrapper, the re-export to a byte stream, and `abort()`.
  - Module `StreamSpec` defines it as a pure state machine and proves properties over whole runs.
  - Module `Streaming` holds classes whose methods are proved to make exactly the steps that `StreamSpec` defines.
- **Request construction and response classification** in `RequestClient.fetchJSS` (`src/request.ts`), in module `Request`.
- **The multipart field builder `createFileUploadFormData`** (`src/utils.ts`), in module `FormUpload`.
- **`removeUndefinedProperties` and `respToFileChoice`** (`src/helpers.ts`), in module `Helpers`.
- **`tool()`** (`src/vercel-tool.ts`), in module `VercelTool`.
- **`getTools` and the argument-selection rules of the AI SDK tools** (`src/vercel-ai-toolkit.ts`), in module `ToolKit`.

JavaScript values are the datatype `JsValues.Value`. The host functions the core calls are fields of `JsValues.Builtins` and are left uninterpreted, so every property holds whatever they compute. Those functions are `TextDecoder`, `TextEncoder`, `JSON.parse`, `JSON.stringify`, `String()` and `URLSearchParams`.

The network is a parameter. `fetch` is a function from the built request to a response or a network error. The race between a failing read and an abort is a boolean input to `next()`: did some party abort while the read was pending.

In three places the code behaves differently from a natural reading of the stream's design. The model follows the code:

- **The producer can run more than once.** Every `[Symbol.asyncIterator]()` call runs the producer again (`src/lib/streaming.ts:55`). That makes a new generator over the same reader. Once a first iteration has released the lock, a second iteration's first `next()` rejects with a TypeError (`StreamSpec.SecondIterationRejects`).
- **An empty byte chunk is not passed through.** It is an object, so it is truthy. It is decoded, `JSON.parse("")` throws, and the item is `""` (`StreamSpec.EmptyChunkBecomesEmptyText`).
- **`abort()` does not release the reader's lock.** Later `next()` calls answer done without touching the generator, so the lock stays held (`Streaming.AbortMidStream`, `StreamSpec.AbortedRunReadsNothing`).

## Model

| member | source | states |
|---|---|---|
| StreamSpec.TryParseData | src/lib/streaming.ts:22-36 | a falsy value and any non-Uint8Array value come back unchanged; a Uint8Array (Buffers included) is UTF-8 decoded and yields the parsed JSON, or the decoded text when parsing fails; it never throws |
| StreamSpec.GenNext | src/lib/streaming.ts:38-49 | a live generator answers with what its read delivered: the chunk decoded by `tryParseData`, done at the end, or a rejection with the read's own error; a chunk read advances the reader by one and leaves the lock held; the end or a read error finishes the generator, releases the lock exactly once and reads nothing more; a finished generator answers done |
| StreamSpec.GenReturn | src/lib/streaming.ts:38-49 | `return(v)` finishes the generator with done(v); the `finally` releases the lock (released flag set, one more `releaseLock` call) exactly when the generator was paused at its `yield`; the reader is otherwise untouched |
| StreamSpec.GenThrow | src/lib/streaming.ts:38-49 | `throw(e)` finishes the generator and rejects with `e`; the lock is released (released flag set, one more `releaseLock` call) exactly when the generator was paused at its `yield`; the reader is otherwise untouched |
| StreamSpec.WrappedNext | src/lib/streaming.ts:60-73 | an aborted signal answers done and changes nothing; otherwise the generator takes one step, and its error becomes done exactly when an abort happened during the read, while every other outcome passes through unchanged |
| StreamSpec.WrappedReturn | src/lib/streaming.ts:74-76 | delegates to the generator's `return` when the hook exists, else resolves to done and changes nothing |
| StreamSpec.WrappedThrow | src/lib/streaming.ts:77-79 | delegates to the generator's `throw` when the hook exists, else resolves to done and changes nothing |
| StreamSpec.Run | src/lib/streaming.ts:59-80 | a sequence of calls on the wrapper answers once per call |
| StreamSpec.AbortedRunReadsNothing | src/lib/streaming.ts:60-63 | once aborted, the signal stays aborted, no call reads from the reader, every `next()` answers done, and a run of `next()` calls changes no state (the lock stays held) |
| StreamSpec.RunKeepsDiscipline | src/lib/streaming.ts:38-49 | over any sequence of `next`/`return`/`throw` calls, aborted or not, the lock is held while the generator is live and released at most once |
| StreamSpec.RestStep | src/lib/streaming.ts:40-44 | reading a chunk moves its decoded item to the front of the remaining items; reading the end or an error leaves no items and fixes how the run ends |
| StreamSpec.NextAdvances | src/lib/streaming.ts:40-47 | one un-aborted `next()` on a live generator either yields the next item and keeps the lock, or ends the items the way the script ends and releases the lock once |
| StreamSpec.DrainYieldsChunksInOrder | src/lib/streaming.ts:38-49 | calling `next()` until done yields one decoded item per chunk, in read order, then done or the first read error; the generator is finished and the lock released exactly once |
| StreamSpec.Deliver | src/lib/streaming.ts:92-104 | a pull closes on done, enqueues exactly one chunk `encode(JSON.stringify(value) + "\n")` per item, and turns an error into the errored state instead of throwing |
| StreamSpec.PullsFrameEachItem | src/lib/streaming.ts:92-104 | pulling items and then done enqueues one frame per item, in order, after what was already enqueued, and closes the stream |
| StreamSpec.ExportedStreamFramesEachChunk | src/lib/streaming.ts:38-104 | exporting a stream whose source ends cleanly enqueues exactly one frame per decoded chunk, in read order, and closes the stream |
| StreamSpec.ReexportRoundTrip | src/lib/streaming.ts:22-104 | reading the framed chunks of `toReadableStream` back with `fromReadableStream` gives back the items, then done, whenever, for each item, decoding the encoded framed line gives that line back and parsing it gives the item back |
| StreamSpec.SecondIterationRejects | src/lib/streaming.ts:54-55 | a second iteration over an already released reader rejects its first `next()` with a TypeError |
| StreamSpec.EmptyChunkBecomesEmptyText | src/lib/streaming.ts:23-33 | an empty Uint8Array chunk becomes the empty string, not itself |
| Streaming.AbortController.Abort | src/lib/streaming.ts:113-115 | aborting sets the signal, one way |
| Streaming.Reader.Read | src/lib/streaming.ts:41 | one `read()` makes exactly the step `ReadNext` defines: chunks in script order, a sticky end or error, a TypeError after release |
| Streaming.Reader.ReleaseLock | src/lib/streaming.ts:47 | `releaseLock()` marks the reader released and counts the call |
| Streaming.SourceIterator.Next | src/lib/streaming.ts:38-49 | the generator's `next()` makes exactly the step `GenNext` defines |
| Streaming.SourceIterator.Return | src/lib/streaming.ts:38-49 | the generator's `return(v)` makes exactly the step `GenReturn` defines |
| Streaming.SourceIterator.Throw | src/lib/streaming.ts:38-49 | the generator's `throw(e)` makes exactly the step `GenThrow` defines |
| Streaming.AbortableIterator.Next | src/lib/streaming.ts:60-73 | the wrapped `next()` makes exactly the step `WrappedNext` defines, on the shared signal |
| Streaming.AbortableIterator.Return | src/lib/streaming.ts:74-76 | the wrapped `return(v)` makes exactly the step `WrappedReturn` defines |
| Streaming.AbortableIterator.Throw | src/lib/streaming.ts:77-79 | the wrapped `throw(e)` makes exactly the step `WrappedThrow` defines |
| Streaming.Stream.constructor | src/lib/streaming.ts:6-11 | the stream keeps the supplied controller itself, or else makes a fresh, unaborted one |
| Streaming.Stream.FromReadableStream | src/lib/streaming.ts:13-52 | takes a fresh reader at the start of the script with the lock held; uses the supplied controller or a fresh one; the generator has both hooks |
| Streaming.Stream.AsyncIterator | src/lib/streaming.ts:54-59 | every call runs the producer again: a fresh generator over the same reader, guarded by the stream's own controller |
| Streaming.Stream.ToReadableStream | src/lib/streaming.ts:83-91 | `start` takes a fresh iterator of this stream; the produced stream starts readable and empty |
| Streaming.Stream.Abort | src/lib/streaming.ts:113-115 | `abort()` aborts the stream's controller, and so every party sharing it |
| Streaming.ByteSource.Pull | src/lib/streaming.ts:92-104 | a pull on the readable stream makes one wrapped `next()` and delivers its outcome as `Deliver` defines; a closed or errored stream is left alone |
| Streaming.ByteSource.Cancel | src/lib/streaming.ts:105-108 | `cancel()` ends the iterator through its `return` and then aborts the owning stream's controller |
| Streaming.Collect | src/lib/streaming.ts:38-49 | a `for await` consumer with no abort receives exactly the decoded chunks in read order, ends as the script ends, and leaves the lock released exactly once |
| Streaming.AbortMidStream | src/lib/streaming.ts:60-63 | after one item and `abort()`, the next call answers done; only one chunk was read and the lock is still held |
| Streaming.ExternalAbortStopsStream | src/lib/streaming.ts:6-18 | aborting an externally supplied controller stops the stream before it reads anything |
| Request.BuildRequest | src/request.ts:17-33 | URL is the base URL (the default when absent or empty) plus the path, plus `?` and the encoded query exactly when parameters with at least one key are given; headers hold `x-api-key` and `Content-Type`, the latter `application/octet-stream` exactly for a Blob or Buffer body and `application/json` otherwise, with caller headers overriding both; only POST and PATCH carry a body, the raw file for uploads, nothing for an undefined body, and the JSON text otherwise |
| Request.Classify | src/request.ts:35-42 | a non-ok response throws its parsed error body (or the SyntaxError when it is not JSON); an ok response with a JSON content type returns the parsed body or rejects with the SyntaxError; any other ok response is returned as the raw response |
| Request.FetchJSS | src/request.ts:6-43 | the call sends the built request; a network error propagates unchanged, and a response is classified |
| Request.ContainsAfterPrefix | src/request.ts:40 | the JSON content type is recognised anywhere in the header value, as with a charset suffix |
| FormUpload.FieldText | src/utils.ts:22-30 | arrays and other objects are sent as their JSON text; every other value as `String(value)` |
| FormUpload.CreateFileUploadFormData | src/utils.ts:8-35 | the first field is the file's bytes under the given field name or `"file"`, a Buffer wrapped as a Blob of the same bytes; the option fields follow in entry order; the number of fields is one plus the number of present options |
| FormUpload.OptionFieldsArePresentEntries | src/utils.ts:16-32 | the option fields are exactly the entries whose value is neither undefined nor null, in order, each encoded under its own key |
| FormUpload.PresentEntriesSnoc | src/utils.ts:17-32 | filtering the options extended by one entry extends the filtered list by that entry exactly when its value is present |
| FormUpload.FieldCount | src/utils.ts:13-32 | the number of option fields is the number of present entries, at most the number of entries |
| FormUpload.PresentCountBound | src/utils.ts:17-32 | no more present entries than entries |
| FormUpload.OptionFieldsComeFromPresentEntries | src/utils.ts:17-20 | every option field is named after an entry whose value is present |
| Helpers.PlainObject.constructor | src/helpers.ts:20 | the shallow copy has the same own properties |
| Helpers.PlainObject.Delete | src/helpers.ts:21 | `delete obj[key]` removes that key and nothing else |
| Helpers.DefinedOnly | src/helpers.ts:21 | no kept key maps to undefined; every key with another value is kept with that same value |
| Helpers.RemoveUndefinedProperties | src/helpers.ts:19-23 | returns a fresh object holding exactly the defined-valued properties of the input, and leaves the input object unmodified |
| Helpers.DefinedOnlyIdempotent | src/helpers.ts:19-23 | removing undefined properties twice gives the same result as once |
| Helpers.FalsyButDefinedKept | src/helpers.ts:21 | null, false, 0 and "" values are kept unchanged |
| Helpers.RespToFileChoice | src/helpers.ts:1-17 | any value that is not a Response is returned unchanged; a Response becomes an object with exactly the `blob`, `buffer` and `file` readers |
| VercelTool.Tool | src/vercel-tool.ts:38-44 | every field of the definition is copied unchanged; `type` is `"function"` when the definition has none, and a `type` of the definition overrides it |
| VercelTool.ToolTypeField | src/vercel-tool.ts:34-43 | on a definition whose `type` the interface allows, the result's `type` is allowed too, and is `"function"` unless the definition says undefined |
| VercelTool.ToolIdempotent | src/vercel-tool.ts:38-44 | `tool(tool(d))` equals `tool(d)` |
| ToolKit.AllTools | src/vercel-ai-toolkit.ts:36-405 | every catalogued tool object is truthy |
| ToolKit.CatalogueMapTruthy | src/vercel-ai-toolkit.ts:36-405 | each tool built by `tool()` is an object, hence truthy |
| ToolKit.NotCatalogued | src/vercel-ai-toolkit.ts:36-405 | a name no tool carries is not a key of the catalogue |
| ToolKit.BracketLookup | src/vercel-ai-toolkit.ts:29 | `obj[name]` finds an own property, else a truthy inherited `Object.prototype` member, else undefined; `"__proto__"` is taken as undefined (see Left out) |
| ToolKit.SelectAsWritten | src/vercel-ai-toolkit.ts:27-33 | the selection as written can only hold catalogue names and inherited member names |
| ToolKit.InheritedNameLeaks | src/vercel-ai-toolkit.ts:29-30 | requesting `"toString"` yields a `"toString"` entry that is no tool |
| ToolKit.Selected | src/vercel-ai-toolkit.ts:27-33 | the intended selection holds only catalogue names, each with the very tool of the catalogue |
| ToolKit.SelectedKeys | src/vercel-ai-toolkit.ts:27-33 | the intended selection's keys are exactly the requested names that own a truthy tool |
| ToolKit.AsWrittenAgreesOffPrototype | src/vercel-ai-toolkit.ts:27-33 | when no inherited member name is requested, the code as written makes the intended selection |
| ToolKit.GetToolsAsWritten | src/vercel-ai-toolkit.ts:18-34 | `getTools` as written: an absent or empty list returns the whole catalogue; otherwise the keys are catalogue names or inherited member names, and each catalogue name keeps its own tool |
| ToolKit.AsWrittenSelectsCatalogueNames | src/vercel-ai-toolkit.ts:18-34 | when no inherited member name is requested, `getTools` as written keeps exactly the requested names the catalogue has, each with its catalogue tool, as `GetTools` does |
| ToolKit.GetTools | src/vercel-ai-toolkit.ts:18-34 | an absent or empty list returns the whole catalogue; otherwise the keys are exactly the requested names the catalogue has, unknown names dropped, each mapped to the catalogue's own tool |
| ToolKit.SourceOf | src/vercel-ai-toolkit.ts:92-104 | a truthy `url` wins; a truthy `file_store_key` is used only without one; otherwise there is no source |
| ToolKit.OrDefault | src/vercel-ai-toolkit.ts:228 | a truthy value is kept and a falsy one replaced by `"default"` |
| ToolKit.Summary | src/vercel-ai-toolkit.ts:57-65 | `summary` forwards its four arguments and always sends `type: "text"` |
| ToolKit.TranslateImage | src/vercel-ai-toolkit.ts:91-112 | sends the `url` when truthy even if a file store key is given, else the file store key, always with `return_type: "url"`; with neither it makes no call and replies `success: true` with the target language |
| ToolKit.TextToSql | src/vercel-ai-toolkit.ts:164-183 | sends the file store key when truthy, else the schema when truthy, else only the prompt and the database; never both sources |
| ToolKit.HtmlToAny | src/vercel-ai-toolkit.ts:215-231 | makes the conversion call with all six arguments, then replies `success: true` with the requested format or `"default"` |
| ToolKit.WebSearch | src/vercel-ai-toolkit.ts:238-247 | always sends `ai_overview: false` and `auto_scrape: false`; an omitted `safe_search` is `"moderate"` |
| ToolKit.Vocr | src/vercel-ai-toolkit.ts:269-283 | sends the `url` when truthy, else the file store key, with the prompt and page range; with neither it returns undefined |
| ToolKit.ObjectDetection | src/vercel-ai-toolkit.ts:292-304 | sends the `url` when truthy, else the file store key, with `return_type: "url"`; with neither it returns undefined |
| ToolKit.TextToSpeech | src/vercel-ai-toolkit.ts:335-349 | makes the speech call, then replies with the text length and the accent asked for or `"default"` |
| ToolKit.VisionToolsAgreeOnSource | src/vercel-ai-toolkit.ts:91-304 | `translate_image`, `vocr` and `object_detection` send the same source for the same inputs, never both a URL and a file store key |
| ToolKit.EmptyUrlFallsBack | src/vercel-ai-toolkit.ts:92-98 | an empty-string URL counts as absent, so the file store key is sent |

## Left out

- Real asynchrony is not modelled: promises, the event loop, `ReadableStream` queueing, back-pressure and the scheduling of `start`/`pull`. An abort racing a read is the `abortedDuringRead` input; calls happen one after another.
- A `Stream` built directly with an arbitrary producer function is not modelled. Only the producer `fromReadableStream` builds, the generator over a reader, is modelled; other iterators are described only by whether they have `return` and `throw` (`Hooks`).
- `AbortSignal` events and listeners are not modelled: the signal is its `aborted` flag.
- The host codecs are uninterpreted functions: `TextDecoder`/`TextEncoder` (UTF-8, RFC 3629), `JSON.parse`/`JSON.stringify` (RFC 8259), `String()` and the `application/x-www-form-urlencoded` serializer of `URLSearchParams`.
- `fetch` and the `Response` object are not modelled beyond the status flag, the Content-Type header and the body bytes. That covers reading the body twice, other headers, status codes and redirects.
- The `blob`, `buffer` and `file` readers that `respToFileChoice` attaches to a Response are not modelled. They read the body (I/O) and construct `Blob`, `Buffer` and `File` objects.
- Helpers.RemoveUndefinedProperties: does not model spreading a non-object, where a string or array spreads into index keys. The input is the own enumerable properties of the object.
- Key order of JavaScript objects is not modelled (maps are unordered), so header, result and tool-map order is not captured; the option entries of a form keep their order.
- The multipart encoding of `FormData` is not modelled, nor the Blob MIME type; a form is its list of (name, value) fields.
- The zod schemas are not modelled: parameter validation, type coercion and `.describe()` texts. Only the default of `safe_search` is modelled. The defaults of `profanity_check` (`"*"`) and `spell_check` (`"en"`) live in schemas only.
- The `execute` functions that only forward their arguments to one endpoint are not modelled: `sentiment`, `translate_text`, `embedding`, `prediction`, `ai_scrape`, `search_suggestions`, `speech_to_text`, `nsfw_detection`, `profanity_check`, `spell_check` and `spam_check`.
- ToolKit.BracketLookup: `obj["__proto__"]` yields the truthy `Object.prototype` in JavaScript but undefined here. The `getTools` result is the same either way, since assigning to `"__proto__"` creates no own property.
- ToolKit.AllTools: states only that every tool is truthy. Its keys and tools are the catalogue's by construction, and each tool stands for its schema and closure.
- StreamSpec.Run: states only one outcome per call; what the outcomes are is stated by the lemmas about runs.
- ToolKit.TextToSpeech: `text_length` counts code points (one per `char`), whereas JavaScript's `text.length` counts UTF-16 units, so a character outside the Basic Multilingual Plane counts once here and twice in the source.
- The endpoint wrappers are not modelled; they forward parameters to `fetchJSS`, and their behaviour is on the server. These are the files under `src/general`, `src/audio`, `src/vision`, `src/web`, `src/search`, `src/geo`, `src/prompt_engine`, `src/store`, `src/classification`, `src/object_detection` and `src/validate`.
- The client factories in `index.ts` and `src/core.ts` are not modelled, including the environment-variable API-key lookup. Nor are the declaration-only `interfaces*.ts` and `types.ts`.
- The integration tests, which call the remote API, are not modelled.
- Numbers are reals with a separate NaN, with no BigInt or floating-point rounding.

## Findings

| source | as written | input that shows it | evidently intended | confidence | as-written member | corrected member |
|---|---|---|---|---|---|---|
| src/vercel-ai-toolkit.ts:29-30 | `availableTools[toolName]` also finds members inherited from `Object.prototype`, and copies them into the result | `getTools({ tools: ["toString"] })` returns `{ toString: [Function] }` instead of `{}` | only names the tool catalogue itself owns are selected; unknown names are dropped | medium, not executed | ToolKit.InheritedNameLeaks | ToolKit.GetTools |
