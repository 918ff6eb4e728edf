# QwenTransformer in Dafny

This project models `QwenTransformer` (lib/plugins/qwen-transformer.js). The transformer is a
compatibility adapter between a client and a Qwen backend. It has two entry points:

- **Request phase** (`transformRequestIn`). Every tool whose `function.name` is `"WebSearch"` or
  `"web_search"` is redefined as the canonical `web_search` tool. The new definition has a fixed
  description and a fixed parameter schema with one required string property `query`. All other
  fields are kept. A fixed reminder is then appended to `system`. How depends on the shape:
  - an array gets a new `{type: "text", text: reminder}` block;
  - a string is concatenated;
  - an object gets its `text` concatenated, only when `text` is truthy;
  - any other shape is left alone.
- **Response phase** (`transformResponseOut`). Dispatch is by `Content-Type`.
  - `application/json` (checked first): the body is parsed. Every alias name under
    `choices[0].message.tool_calls` becomes `web_search`. The document is always re-serialised.
  - `text/event-stream`: the body is read chunk by chunk. It is cut into lines at `"\n"`, and
    the unfinished last line is buffered. A `data: ` line is rewritten when its trimmed payload
    is not `[DONE]`, parses, and carries `choices[0].delta.tool_calls`. A rewritten line is
    emitted as `data: <json>` plus two line feeds. Every other line is emitted verbatim plus one
    line feed.
  - anything else: the response is returned untouched.

Modules:

- `Wrappers`: `Option` and `Completion`. A `Completion` is a JavaScript value or a thrown
  `TypeError`. Also `MapCompletion`, which is `Array.prototype.map` with a callback that may throw.
- `Json`: parsed JSON values. Also JavaScript truthiness, property access, optional chaining and
  ToString coercion.
- `JsStrings`: `startsWith`, `includes` and `trim`, with ECMAScript's whitespace set.
- `ToolNames`: the alias test and the tool-call rename. This code is shared by the JSON path and
  the stream path. It includes the path `choices[0].<message|delta>.tool_calls`, with its
  read/write laws.
- `RequestRewriter`: the request phase. `Request` is a class whose `fields` the method updates in
  place.
- `EventStream`: `split("\n")` and the per-line rewrite. `LineRewriter` is a class with the
  `buffer` and the emitted `output`, and `TransformStream` runs the read loop.
- `ResponseRewriter`: the response record, the JSON path and the content-type dispatch.

`JSON.parse` and `JSON.stringify` belong to the JavaScript runtime. They are parameters
`parse: string -> Option<Json>` (where `None` means "throws") and `serialize: Json -> string`.
Every result is stated for any such pair of functions.

The model follows the code in these details:

- A rewritten stream line ends in two line feeds, and a verbatim line in one.
- A `system` object is augmented only when its `text` is truthy. A non-string truthy `text` is
  converted to a string by `+` before the concatenation. That conversion throws a `TypeError`
  on a parsed object owning a `toString` member, at the top or inside an array.
- A `null` entry in `tools` makes `transformRequestIn` throw before anything changes. A throwing
  `system.text` conversion makes it throw after `tools` was already reassigned.
- When the JSON path gives back the original response, `res.json()` has already used its body,
  if it had one; a `null` body stays `null` (it reads as the empty text, which does not parse). On the stream path a `null` or already used body makes `res.body.getReader()` throw, so
  `transformResponseOut` rejects.
- A `null` document, a truthy non-array `tool_calls`, or a `null` tool call makes the rename
  throw. The JSON path then returns the original response, and the stream path emits the line
  verbatim.
- At end of input, the fragment left in the buffer is never emitted.

## Model

| member | source | states |
|---|---|---|
| `Wrappers.MapCompletion` | lib/plugins/qwen-transformer.js:10-33 | `map` succeeds iff the callback succeeds on every element; then the result has the same length and holds each element's image in order |
| `ToolNames.RenameCall` | lib/plugins/qwen-transformer.js:67-70 | a `null` call throws; a call named by an alias gets name `web_search` with the same keys and every other field of the call and of its `function` unchanged; any other call is returned as is; no result carries the name `WebSearch` |
| `ToolNames.RenameCallIdempotent` | lib/plugins/qwen-transformer.js:67-70 | renaming a renamed call changes nothing |
| `ToolNames.RenameCallIdempotentOnCanonical` | lib/plugins/qwen-transformer.js:67-70 | a non-null call not named `WebSearch` is a fixed point of the rename |
| `ToolNames.PutThenGet` | lib/plugins/qwen-transformer.js:65 | after assigning `choices[0].<step>.tool_calls`, reading the path gives the assigned value |
| `ToolNames.GetThenPut` | lib/plugins/qwen-transformer.js:65 | assigning back the value already at the path leaves the document equal to itself |
| `ToolNames.PutToolCallsFrame` | lib/plugins/qwen-transformer.js:65 | the assignment keeps every key of the document, of `choices`, of `choices[0]` and of `choices[0].<step>`, and every member or entry off the path keeps its value |
| `ToolNames.PutThenPut` | lib/plugins/qwen-transformer.js:65 | a second assignment to the path overrides the first and keeps the path readable |
| `ToolNames.RenameToolCallsAt` | lib/plugins/qwen-transformer.js:64-72 | a missing or falsy `tool_calls` leaves a non-null document unchanged; when it throws is stated by `RenameThrowsExactly`, what it writes by `RenamedCallsAreCanonical` (the same function serves the stream path at :121-126) |
| `ToolNames.RenameThrowsExactly` | lib/plugins/qwen-transformer.js:64-72 | the tool-call rename throws iff the document is `null`, or its truthy `tool_calls` is not an array or holds a `null` |
| `ToolNames.RenamedCallsAreCanonical` | lib/plugins/qwen-transformer.js:64-72 | after the rename, the list at the path has the same length and order, each entry is its call renamed, and none is named `WebSearch` |
| `ToolNames.RenameWithoutLegacyNamesIsIdentity` | lib/plugins/qwen-transformer.js:64-72 | a non-null document whose `tool_calls` is an array with no `null` entry and no call named `WebSearch` comes out of the rename equal to itself |
| `ToolNames.RenameToolCallsIdempotent` | lib/plugins/qwen-transformer.js:64-72 | renaming a document twice equals renaming it once |
| `RequestRewriter.RewriteTool` | lib/plugins/qwen-transformer.js:11-32 | a `null` tool throws; a tool named by an alias becomes the canonical tool (name `web_search`, the fixed description, the fixed `query` schema) with all its other fields and all other `function` fields kept; any other tool is returned unchanged |
| `RequestRewriter.RewriteTools` | lib/plugins/qwen-transformer.js:10-33 | the tools array maps without throwing iff it holds no `null`; then the result has the same length and each entry is its tool rewritten |
| `RequestRewriter.RewriteToolIdempotent` | lib/plugins/qwen-transformer.js:11-30 | rewriting a rewritten tool changes nothing |
| `RequestRewriter.RewriteToolsIdempotent` | lib/plugins/qwen-transformer.js:9-33 | rewriting an already rewritten tools list gives the same list |
| `Json.ToJsString` | lib/plugins/qwen-transformer.js:49 | the string conversion of `+` throws iff it meets an object owning a `toString` member, at the top or inside an array; a string converts to itself, any other object to `[object Object]` |
| `RequestRewriter.AugmentSystem` | lib/plugins/qwen-transformer.js:37-51 | throws iff `system` is an object whose truthy `text` cannot be converted to a string; an array gains exactly one trailing reminder block with earlier blocks unchanged; a string becomes old text + reminder; an object with truthy `text` keeps its keys and other fields and gets the converted text + reminder; every other shape is unchanged |
| `RequestRewriter.RewriteToolsField` | lib/plugins/qwen-transformer.js:9-34 | throws iff the tools array holds a `null`; otherwise keeps every key and every field but `tools`, leaves a non-array `tools` unchanged, and rewrites an array tool by tool |
| `RequestRewriter.RewriteRequest` | lib/plugins/qwen-transformer.js:7-54 | throws iff the tools array holds a `null` or the system text cannot be converted; otherwise keeps every key, leaves other fields and a non-array `tools` unchanged, keeps the tools array's length and order with each tool rewritten, and augments `system` |
| `RequestRewriter.TransformRequestIn` | lib/plugins/qwen-transformer.js:7-54 | updates the request in place to `RewriteRequest` of its old fields and resolves to it; rejects leaving the request unchanged on a `null` tool, and with only `tools` rewritten when the system text cannot be converted |
| `JsStrings.Trim` | lib/plugins/qwen-transformer.js:116 | the result sits in the input with only whitespace removed on either side, and neither starts nor ends with whitespace |
| `JsStrings.TrimPadded` | lib/plugins/qwen-transformer.js:116 | trimming text padded with whitespace gives the text back |
| `EventStream.Split` | lib/plugins/qwen-transformer.js:111 | `split("\n")` gives at least one part, no part holds a line feed, and joining the parts with line feeds gives the input back |
| `EventStream.SplitTerminated` | lib/plugins/qwen-transformer.js:111-112 | splitting lines joined with line feeds plus a fragment recovers exactly those lines and that fragment |
| `EventStream.FeedPreservesSplit` | lib/plugins/qwen-transformer.js:109-112 | one chunk keeps lines and buffer free of line feeds, equal together to all text received, and equal to what splitting that text gives |
| `EventStream.CompleteLinesAppend` | lib/plugins/qwen-transformer.js:108-112 | the complete lines of `s + chunk` are those of `s` followed by those of its pending fragment plus the chunk, so only the fragment needs buffering |
| `EventStream.TrailingFragmentDropped` | lib/plugins/qwen-transformer.js:104-112 | text ending in a fragment without a line feed has exactly the lines before it as complete lines: the fragment is never emitted |
| `EventStream.RewrittenPayload` | lib/plugins/qwen-transformer.js:115-133 | only a `data: ` line whose trimmed payload is not `[DONE]`, parses, and has a delta tool-call list is rewritten, to the renamed document with no `WebSearch` left; when such a line is not rewritten, the rename threw |
| `EventStream.RewriteLine` | lib/plugins/qwen-transformer.js:115-135 | the output of one line; which lines are rewritten and into what is stated by `RewrittenPayload`, and how each is framed by `LineFraming` and `DoneLineVerbatim` |
| `EventStream.LineFraming` | lib/plugins/qwen-transformer.js:127-135 | a verbatim line goes out as itself plus one line feed; a rewritten one starts with `data: ` and ends with two line feeds |
| `EventStream.DoneLineVerbatim` | lib/plugins/qwen-transformer.js:115-117 | `data: ` + whitespace + `[DONE]` + whitespace goes out verbatim: the payload is trimmed before the sentinel test |
| `EventStream.RewriteLines` | lib/plugins/qwen-transformer.js:114-136 | one output piece per line, in the same order |
| `EventStream.LineRewriter.constructor` | lib/plugins/qwen-transformer.js:99 | starts with an empty buffer, no output and nothing received |
| `EventStream.LineRewriter.Feed` | lib/plugins/qwen-transformer.js:108-136 | appends the outputs of the newly completed lines to `output`; afterwards the handled lines and the buffer are what splitting all received text gives, whatever the chunking |
| `EventStream.LineRewriter.Close` | lib/plugins/qwen-transformer.js:137-141 | the stream ends as the upstream ended and its pieces are the outputs of the complete lines only; the buffered fragment is dropped |
| `EventStream.TransformStream` | lib/plugins/qwen-transformer.js:95-150 | the output is one piece per complete line of the concatenated chunks, so it does not depend on where chunk boundaries fall; it ends as the upstream ended |
| `ResponseRewriter.ContentType` | lib/plugins/qwen-transformer.js:57 | the `Content-Type` header's value, or the empty string when there is none |
| `ResponseRewriter.BodyText` | lib/plugins/qwen-transformer.js:61 | `res.json()` parses the empty string for a `null` body and the whole text of a stream that closed; it rejects on a failed stream or an already used body |
| `ResponseRewriter.AfterRead` | lib/plugins/qwen-transformer.js:61 | after `res.json()` a body that was there to read is used; status, text and headers are unchanged |
| `ResponseRewriter.RewriteJsonResponse` | lib/plugins/qwen-transformer.js:59-92 | status, text and headers are kept; a failed read, a parse failure or a throwing rename gives the original response, whose body, if it had one, has been used; otherwise the body is the serialised renamed document, changed or not |
| `ResponseRewriter.JsonBodyWithoutLegacyNames` | lib/plugins/qwen-transformer.js:75-88 | a parsed non-null document whose `message.tool_calls` is an array with no `null` entry and no call named `WebSearch` (or is missing or falsy) is re-serialised as it was read |
| `ResponseRewriter.JsonBodyCallsCanonical` | lib/plugins/qwen-transformer.js:64-88 | the re-serialised document has the same number of message tool calls and none named `WebSearch` |
| `ResponseRewriter.TransformResponseOut` | lib/plugins/qwen-transformer.js:56-153 | a JSON content type, checked first, takes the JSON path; otherwise an event stream takes the line rewriter, and rejects iff the body is `null` or already used; any other response is returned unchanged; status, text and headers are always kept |

## Left out

- Stream plumbing is not modelled: `ReadableStream`, `reader.read()`, `controller.enqueue/close/error`, backpressure and `async`/`await`. The read loop is a sequence of `Feed` calls followed by `Close`. An upstream failure is an `Errored` end, and the error value itself is not kept.
- UTF-8 decoding with `TextDecoder` is not modelled. Chunks arrive already decoded as text. A character split across two byte chunks is assumed to be reassembled by the decoder. On the output side, `TextEncoder` is not modelled either: output pieces are text, not the encoded bytes.
- `JSON.parse` and `JSON.stringify` are not modelled; they are the function parameters `parse` and `serialize`.
- `Response` construction and `Headers` are reduced to a record. Its body is `null`, unread, or used; a stream read only partly by someone else is not modelled. Header names are stored lower-cased, because `Headers.get` is case-insensitive. Each header has one value.
- The constructor and `options` are left out. They hold no logic.
- Object key order is not kept, because objects are maps. It only affects the text `JSON.stringify` writes.
- Numbers are integers: floating point and `NaN` are left out.
- Json.ToJsString: converts a number to text the way JavaScript does only for integers of magnitude up to 2^53. Beyond that a JavaScript number is the nearest double, whose text is the shortest decimal digits that round back to it (2^64 becomes `18446744073709552000`), and from 10^21 on it is written in exponent form; the model writes the exact digits instead, because JSON values here carry unbounded integers rather than doubles.
- Strings are sequences of Unicode scalar values, not UTF-16 code units. Indexing differs only for `choices[0]` when `choices` is a string, and that value never carries tool calls. A JavaScript string holding a lone surrogate, which `JSON.parse` makes from an escape such as `"\ud800"`, cannot be represented at all.
- Aliasing is not modelled: in-place `push` on a `system` array, and in-place mutation of tool-call objects, are new values here. Another holder of the same JavaScript array or object would also see the change.
- `undefined` entries inside arrays are not modelled, because parsed JSON cannot contain them.
